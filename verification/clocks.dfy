/** repaintClocks and repaintSymbolicClocks: the clock face, then each hand turned
    about the dial's pivot. The code feeds cairo the DIFFERENCE between a hand's
    angle and the previous hand's, so the rotations must add up to each hand's own
    angle; the lemmas here show they do. */
module Clocks {
  import opened Transform
  import opened Canvas
  import opened ClockAngles
  import opened IconSize
  import opened Artwork

  /** The hands of the full-colour artwork turn about (256, 252) of its canvas, those
      of the symbolic artwork about (64, 64). */
  const FacePivot: Point := Point(256.0, 252.0)
  const SymbolicPivot: Point := Point(64.0, 64.0)

  /** One hand: translate to the pivot, rotate by `delta`, translate back, paint. */
  function Hand(pivot: Point, delta: real, layer: Layer): seq<Op> {
    [Translate(pivot.x, pivot.y), Rotate(delta), Translate(-pivot.x, -pivot.y),
     SetSourceSurface(layer), Paint]
  }

  /** A hand's word sets the hand as its source and rotates by `delta` once. */
  lemma HandWord(pivot: Point, delta: real, layer: Layer)
    ensures Layers(Hand(pivot, delta, layer)) == [layer]
    ensures Shown(Hand(pivot, delta, layer)) == []
    ensures TotalTurn(Hand(pivot, delta, layer)) == delta
  {
    var ops := Hand(pivot, delta, layer);
    var tail := ops[4..];
    assert tail[1..] == [];
    assert Layers(tail[1..]) == [] && Shown(tail[1..]) == [] && TotalTurn(tail[1..]) == 0.0;
    assert Layers(tail) == [] && Shown(tail) == [] && TotalTurn(tail) == 0.0;
    assert ops[3..][1..] == tail && ops[2..][1..] == ops[3..] && ops[1..][1..] == ops[2..];
    assert Layers(ops[3..]) == [layer] && Shown(ops[3..]) == [] && TotalTurn(ops[3..]) == 0.0;
    assert Layers(ops[2..]) == [layer] && Shown(ops[2..]) == [] && TotalTurn(ops[2..]) == 0.0;
    assert Layers(ops[1..]) == [layer] && Shown(ops[1..]) == [] && TotalTurn(ops[1..]) == delta;
  }

  /** repaintClocks: the face, the hour hand, the minute hand and, with seconds
      shown, the second hand, all painted over one another. The code rotates each
      hand by its difference from the previous one, so the rotations of the whole
      word add up to the last hand's own angle. */
  function RegularClocks(t: Time, showSeconds: bool, fit: Fit): (r: seq<Op>)
    ensures Layers(r) == [ClocksFace, HourHand, MinuteHand] + (if showSeconds then [SecondHand] else [])
    ensures TotalTurn(r) == if showSeconds then SecondAngle(t) else MinuteAngle(t)
    ensures Shown(r) == []
    ensures SetOperator(DestOut) !in r
  {
    var h3 := if showSeconds then Hand(FacePivot, SecondAngle(t) - MinuteAngle(t), SecondHand) else [];
    RegularDialWord(t, fit);
    HandWord(FacePivot, SecondAngle(t) - MinuteAngle(t), SecondHand);
    WordAppend(RegularDial(t, fit), h3);
    RegularDial(t, fit) + h3
  }

  /** repaintSymbolicClocks: the face, then the hour and minute hands cut out of it
      (DEST_OUT); there is no second hand, and the rotations add up to the
      whole-minute angle. */
  function SymbolicClocks(t: Time, fit: Fit): (r: seq<Op>)
    ensures Layers(r) == [SymbolicClocksFace, SymbolicHourHand, SymbolicMinuteHand]
    ensures TotalTurn(r) == SymbolicMinuteAngle(t)
    ensures Shown(r) == []
    ensures SetOperator(DestOut) in r
  {
    var hour := HourAngle(t);
    var b := Background(fit, fit.size / SymbolicCanvas, SymbolicClocksFace);
    var h1 := Hand(SymbolicPivot, hour, SymbolicHourHand);
    var h2 := Hand(SymbolicPivot, SymbolicMinuteAngle(t) - hour, SymbolicMinuteHand);
    BackgroundWord(fit, fit.size / SymbolicCanvas, SymbolicClocksFace);
    QuietOp(SetOperator(DestOut));
    HandWord(SymbolicPivot, hour, SymbolicHourHand);
    HandWord(SymbolicPivot, SymbolicMinuteAngle(t) - hour, SymbolicMinuteHand);
    WordAppend(b, [SetOperator(DestOut)]);
    WordAppend(b + [SetOperator(DestOut)], h1);
    WordAppend(b + [SetOperator(DestOut)] + h1, h2);
    b + [SetOperator(DestOut)] + h1 + h2
  }

  /** The repaint callback: icon style 2 always takes the symbolic path, which is the
      only one that cuts the hands out, and a second hand is drawn exactly when
      seconds are shown outside that style. */
  function RepaintClocks(iconStyle: int, t: Time, showSeconds: bool, requested: int,
                         width: real, height: real): (r: seq<Op>)
    ensures SetOperator(DestOut) in r <==> iconStyle == SymbolicStyle
    ensures SecondHand in Layers(r) <==> iconStyle != SymbolicStyle && showSeconds
    ensures TotalTurn(r) == if iconStyle == SymbolicStyle then SymbolicMinuteAngle(t)
                            else if showSeconds then SecondAngle(t) else MinuteAngle(t)
  {
    var fit := GetIconSize(requested, width, height);
    if iconStyle == SymbolicStyle then SymbolicClocks(t, fit) else RegularClocks(t, showSeconds, fit)
  }

  /** Painting a hand: the CTM is turned about the pivot by `delta`, the running
      angle grows by `delta`, and the hand is painted under the new CTM. */
  lemma HandRun(c: Ctx, pivot: Point, delta: real, layer: Layer, cis: real -> Dir)
    requires c.ok
    ensures var pose := AroundPivot(c.ctm, pivot, cis(delta));
      Run(c, Hand(pivot, delta, layer), cis)
        == c.(ctm := pose, angle := c.angle + delta, source := Surface(layer),
              marks := c.marks + [Painted(Surface(layer), pose, c.angle + delta, c.operator)])
  {
    var ops := Hand(pivot, delta, layer);
    var c1 := Step(c, ops[0], cis);
    var c2 := Step(c1, ops[1], cis);
    var c3 := Step(c2, ops[2], cis);
    var c4 := Step(c3, ops[3], cis);
    var c5 := Step(c4, ops[4], cis);
    assert Run(c, ops, cis) == Run(c1, ops[1..], cis);
    assert Run(c1, ops[1..], cis) == Run(c2, ops[2..], cis);
    assert Run(c2, ops[2..], cis) == Run(c3, ops[3..], cis);
    assert Run(c3, ops[3..], cis) == Run(c4, ops[4..], cis);
    assert Run(c4, ops[4..], cis) == Run(c5, ops[5..], cis);
    assert ops[5..] == [];
  }

  /** The full-colour dial up to the minute hand, without the optional second hand. */
  function RegularDial(t: Time, fit: Fit): seq<Op> {
    var hour := HourAngle(t);
    Background(fit, fit.size / FaceCanvas, ClocksFace)
    + Hand(FacePivot, hour, HourHand)
    + Hand(FacePivot, MinuteAngle(t) - hour, MinuteHand)
  }

  /** The dial's word sets the face, hour and minute layers, writes no text and
      rotates by the minute angle in all. */
  lemma RegularDialWord(t: Time, fit: Fit)
    ensures Layers(RegularDial(t, fit)) == [ClocksFace, HourHand, MinuteHand]
    ensures TotalTurn(RegularDial(t, fit)) == MinuteAngle(t)
    ensures Shown(RegularDial(t, fit)) == []
    ensures SetOperator(DestOut) !in RegularDial(t, fit)
  {
    var hour := HourAngle(t);
    var b := Background(fit, fit.size / FaceCanvas, ClocksFace);
    var h1 := Hand(FacePivot, hour, HourHand);
    var h2 := Hand(FacePivot, MinuteAngle(t) - hour, MinuteHand);
    BackgroundWord(fit, fit.size / FaceCanvas, ClocksFace);
    HandWord(FacePivot, hour, HourHand);
    HandWord(FacePivot, MinuteAngle(t) - hour, MinuteHand);
    WordAppend(b, h1);
    WordAppend(b + h1, h2);
  }

  /** The context after face, hour hand and minute hand. */
  lemma RegularDialRun(t: Time, fit: Fit, m0: Matrix, cis: real -> Dir)
    requires fit.size != 0.0
    ensures var base := Scaled(Translated(m0, fit.dx, fit.dy), fit.size / FaceCanvas);
      var hour := HourAngle(t);
      var minute := MinuteAngle(t);
      var hourPose := AroundPivot(base, FacePivot, cis(hour));
      var minutePose := AroundPivot(hourPose, FacePivot, cis(minute - hour));
      var c := Run(Fresh(m0), RegularDial(t, fit), cis);
      && c.ok && c.ctm == minutePose && c.angle == minute && c.operator == Over
      && c.marks == [Painted(Surface(ClocksFace), base, 0.0, Over),
                     Painted(Surface(HourHand), hourPose, hour, Over),
                     Painted(Surface(MinuteHand), minutePose, minute, Over)]
  {
    var hour := HourAngle(t);
    var minute := MinuteAngle(t);
    var base := Scaled(Translated(m0, fit.dx, fit.dy), fit.size / FaceCanvas);
    var f := fit.size / FaceCanvas;
    var b := Background(fit, f, ClocksFace);
    var h1 := Hand(FacePivot, hour, HourHand);
    var h2 := Hand(FacePivot, minute - hour, MinuteHand);
    var c0 := Fresh(m0);
    var c1 := Run(c0, b, cis);
    assert c1.ok && c1.ctm == base && c1.angle == 0.0 && c1.operator == Over
        && c1.marks == [Painted(Surface(ClocksFace), base, 0.0, Over)] by {
      BackgroundRun(c0, fit, f, ClocksFace, cis);
    }
    var c2 := Run(c1, h1, cis);
    assert Run(c0, b + h1, cis) == c2 by {
      RunAppend(c0, b, h1, cis);
    }
    HandRun(c1, FacePivot, hour, HourHand, cis);
    assert Run(c0, RegularDial(t, fit), cis) == Run(c2, h2, cis) by {
      assert RegularDial(t, fit) == b + h1 + h2;
      RunAppend(c0, b + h1, h2, cis);
    }
    HandRun(c2, FacePivot, minute - hour, MinuteHand, cis);
  }

  /** The full-colour clock, degree by degree: face, hour hand, minute hand and, when
      seconds are shown, the second hand, each painted with OVER. The running angle
      at each hand is that hand's own angle (hour + (minute - hour) = minute, and so
      on), and each pose is the previous one turned by the delta about (256, 252). */
  lemma RegularClocksRun(t: Time, showSeconds: bool, fit: Fit, m0: Matrix, cis: real -> Dir)
    requires fit.size != 0.0
    ensures var base := Scaled(Translated(m0, fit.dx, fit.dy), fit.size / FaceCanvas);
      var hour := HourAngle(t);
      var minute := MinuteAngle(t);
      var hourPose := AroundPivot(base, FacePivot, cis(hour));
      var minutePose := AroundPivot(hourPose, FacePivot, cis(minute - hour));
      Run(Fresh(m0), RegularClocks(t, showSeconds, fit), cis).marks
        == [Painted(Surface(ClocksFace), base, 0.0, Over),
            Painted(Surface(HourHand), hourPose, hour, Over),
            Painted(Surface(MinuteHand), minutePose, minute, Over)]
           + (if showSeconds
              then [Painted(Surface(SecondHand), AroundPivot(minutePose, FacePivot, cis(SecondAngle(t) - minute)),
                            SecondAngle(t), Over)]
              else [])
  {
    var minute := MinuteAngle(t);
    var dial := RegularDial(t, fit);
    var h3 := if showSeconds then Hand(FacePivot, SecondAngle(t) - minute, SecondHand) else [];
    RunAppend(Fresh(m0), dial, h3, cis);
    RegularDialRun(t, fit, m0, cis);
    var c3 := Run(Fresh(m0), dial, cis);
    if showSeconds {
      HandRun(c3, FacePivot, SecondAngle(t) - minute, SecondHand, cis);
    } else {
      assert Run(c3, h3, cis) == c3;
    }
  }

  /** With the true rotations, each hand is drawn at its ABSOLUTE angle about the
      pivot: the minute hand is not turned by hour + minute, nor the second hand by
      minute + second. */
  lemma RegularClocksPoses(t: Time, showSeconds: bool, fit: Fit, m0: Matrix, cis: real -> Dir)
    requires fit.size != 0.0
    requires IsRotationMap(cis)
    ensures var base := Scaled(Translated(m0, fit.dx, fit.dy), fit.size / FaceCanvas);
      Run(Fresh(m0), RegularClocks(t, showSeconds, fit), cis).marks
        == [Painted(Surface(ClocksFace), base, 0.0, Over),
            Painted(Surface(HourHand), AroundPivot(base, FacePivot, cis(HourAngle(t))), HourAngle(t), Over),
            Painted(Surface(MinuteHand), AroundPivot(base, FacePivot, cis(MinuteAngle(t))), MinuteAngle(t), Over)]
           + (if showSeconds
              then [Painted(Surface(SecondHand), AroundPivot(base, FacePivot, cis(SecondAngle(t))), SecondAngle(t), Over)]
              else [])
  {
    var base := Scaled(Translated(m0, fit.dx, fit.dy), fit.size / FaceCanvas);
    RegularClocksRun(t, showSeconds, fit, m0, cis);
    Telescope(base, FacePivot, cis, HourAngle(t), MinuteAngle(t));
    Telescope(base, FacePivot, cis, MinuteAngle(t), SecondAngle(t));
  }

  /** repaintSymbolicClocks is the face, the operator switch and the two hands. */
  lemma SymbolicClocksSplit(t: Time, fit: Fit)
    ensures SymbolicClocks(t, fit)
      == Background(fit, fit.size / SymbolicCanvas, SymbolicClocksFace) + [SetOperator(DestOut)]
         + Hand(SymbolicPivot, HourAngle(t), SymbolicHourHand)
         + Hand(SymbolicPivot, SymbolicMinuteAngle(t) - HourAngle(t), SymbolicMinuteHand)
  {
  }

  /** The symbolic clock: face with OVER, then the hour and minute hands cut out of
      it with DEST_OUT about (64, 64); the minute hand's running angle is the
      seconds-free minute angle. */
  lemma SymbolicClocksRun(t: Time, fit: Fit, m0: Matrix, cis: real -> Dir)
    requires fit.size != 0.0
    ensures var base := Scaled(Translated(m0, fit.dx, fit.dy), fit.size / SymbolicCanvas);
      var hour := HourAngle(t);
      var hourPose := AroundPivot(base, SymbolicPivot, cis(hour));
      Run(Fresh(m0), SymbolicClocks(t, fit), cis).marks
        == [Painted(Surface(SymbolicClocksFace), base, 0.0, Over),
            Painted(Surface(SymbolicHourHand), hourPose, hour, DestOut),
            Painted(Surface(SymbolicMinuteHand),
                    AroundPivot(hourPose, SymbolicPivot, cis(SymbolicMinuteAngle(t) - hour)),
                    SymbolicMinuteAngle(t), DestOut)]
  {
    SymbolicClocksSplit(t, fit);
    SymbolicPartsRun(t, fit, m0, cis);
  }

  /** The run of repaintSymbolicClocks, stated over its four parts. */
  lemma SymbolicPartsRun(t: Time, fit: Fit, m0: Matrix, cis: real -> Dir)
    requires fit.size != 0.0
    ensures var base := Scaled(Translated(m0, fit.dx, fit.dy), fit.size / SymbolicCanvas);
      var hour := HourAngle(t);
      var hourPose := AroundPivot(base, SymbolicPivot, cis(hour));
      Run(Fresh(m0), Background(fit, fit.size / SymbolicCanvas, SymbolicClocksFace) + [SetOperator(DestOut)]
                     + Hand(SymbolicPivot, hour, SymbolicHourHand)
                     + Hand(SymbolicPivot, SymbolicMinuteAngle(t) - hour, SymbolicMinuteHand), cis).marks
        == [Painted(Surface(SymbolicClocksFace), base, 0.0, Over),
            Painted(Surface(SymbolicHourHand), hourPose, hour, DestOut),
            Painted(Surface(SymbolicMinuteHand),
                    AroundPivot(hourPose, SymbolicPivot, cis(SymbolicMinuteAngle(t) - hour)),
                    SymbolicMinuteAngle(t), DestOut)]
  {
    var hour := HourAngle(t);
    var base := Scaled(Translated(m0, fit.dx, fit.dy), fit.size / SymbolicCanvas);
    var f := fit.size / SymbolicCanvas;
    var b := Background(fit, f, SymbolicClocksFace);
    var op := [SetOperator(DestOut)];
    var h1 := Hand(SymbolicPivot, hour, SymbolicHourHand);
    var h2 := Hand(SymbolicPivot, SymbolicMinuteAngle(t) - hour, SymbolicMinuteHand);
    var c0 := Fresh(m0);
    var c1 := Run(c0, b, cis);
    assert c1.ok && c1.ctm == base && c1.angle == 0.0
        && c1.marks == [Painted(Surface(SymbolicClocksFace), base, 0.0, Over)] by {
      BackgroundRun(c0, fit, f, SymbolicClocksFace, cis);
    }
    var c2 := c1.(operator := DestOut);
    assert Run(c0, b + op, cis) == c2 by {
      RunAppend(c0, b, op, cis);
      assert Run(c1, op, cis) == Step(c1, SetOperator(DestOut), cis);
    }
    var c3 := Run(c2, h1, cis);
    assert Run(c0, b + op + h1, cis) == c3 by {
      RunAppend(c0, b + op, h1, cis);
    }
    HandRun(c2, SymbolicPivot, hour, SymbolicHourHand, cis);
    RunAppend(c0, b + op + h1, h2, cis);
    HandRun(c3, SymbolicPivot, SymbolicMinuteAngle(t) - hour, SymbolicMinuteHand, cis);
  }

  /** With the true rotations the symbolic hands sit at their absolute angles too. */
  lemma SymbolicClocksPoses(t: Time, fit: Fit, m0: Matrix, cis: real -> Dir)
    requires fit.size != 0.0
    requires IsRotationMap(cis)
    ensures var base := Scaled(Translated(m0, fit.dx, fit.dy), fit.size / SymbolicCanvas);
      Run(Fresh(m0), SymbolicClocks(t, fit), cis).marks
        == [Painted(Surface(SymbolicClocksFace), base, 0.0, Over),
            Painted(Surface(SymbolicHourHand), AroundPivot(base, SymbolicPivot, cis(HourAngle(t))), HourAngle(t), DestOut),
            Painted(Surface(SymbolicMinuteHand), AroundPivot(base, SymbolicPivot, cis(SymbolicMinuteAngle(t))),
                    SymbolicMinuteAngle(t), DestOut)]
  {
    var base := Scaled(Translated(m0, fit.dx, fit.dy), fit.size / SymbolicCanvas);
    SymbolicClocksRun(t, fit, m0, cis);
    Telescope(base, SymbolicPivot, cis, HourAngle(t), SymbolicMinuteAngle(t));
  }

  /** The second hand appears exactly when seconds are shown and the icon is not
      drawn in the symbolic style (for a non-empty icon). */
  lemma SecondHandShown(iconStyle: int, t: Time, showSeconds: bool, requested: int,
                                           width: real, height: real, m0: Matrix, cis: real -> Dir)
    requires GetIconSize(requested, width, height).size != 0.0
    ensures var marks := Run(Fresh(m0), RepaintClocks(iconStyle, t, showSeconds, requested, width, height), cis).marks;
      (exists i :: 0 <= i < |marks| && marks[i].source == Surface(SecondHand))
        <==> showSeconds && iconStyle != SymbolicStyle
  {
    var fit := GetIconSize(requested, width, height);
    var marks := Run(Fresh(m0), RepaintClocks(iconStyle, t, showSeconds, requested, width, height), cis).marks;
    if iconStyle == SymbolicStyle {
      SymbolicClocksRun(t, fit, m0, cis);
    } else {
      RegularClocksRun(t, showSeconds, fit, m0, cis);
      if showSeconds {
        assert marks[3].source == Surface(SecondHand);
      }
    }
  }

  /** An icon whose square has no size paints nothing: the scale by zero puts cairo
      into its error state before the face is painted. */
  lemma EmptyClocks(iconStyle: int, t: Time, showSeconds: bool, requested: int,
                                       width: real, height: real, m0: Matrix, cis: real -> Dir)
    requires GetIconSize(requested, width, height).size == 0.0
    ensures Run(Fresh(m0), RepaintClocks(iconStyle, t, showSeconds, requested, width, height), cis).marks == []
  {
    var fit := GetIconSize(requested, width, height);
    var ops := RepaintClocks(iconStyle, t, showSeconds, requested, width, height);
    var c0 := Fresh(m0);
    var c1 := Step(c0, ops[0], cis);
    var c2 := Step(c1, ops[1], cis);
    assert Run(c0, ops, cis) == Run(c1, ops[1..], cis);
    assert Run(c1, ops[1..], cis) == Run(c2, ops[2..], cis);
    RunLaws(c2, ops[2..], cis);
    assert !c2.ok && c2.marks == [];
  }
}
