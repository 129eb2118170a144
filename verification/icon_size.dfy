/** How a dynamic icon's pixel size is chosen: newIcon stores the requested size in
    device pixels (or the "natural size" sentinel -1), and getIconSize resolves it
    against the widget's allocation at paint time and centres the square drawing. */
module IconSize {

  /** The size the host passes when it wants the widget's natural size. */
  const Natural: int := -1

  /** newIcon: any size but the sentinel is multiplied by the stage's scale factor
      before it is stored and used as the widget's size. */
  function StoredSize(iconSize: int, scaleFactor: nat): (r: int)
    ensures r == Natural <==> iconSize == Natural
    ensures iconSize != Natural ==> r == iconSize * scaleFactor
  {
    if iconSize != Natural then iconSize * scaleFactor else iconSize
  }

  /** The square a repaint draws into: its side, and the translation getIconSize
      applies so that the square sits in the middle of the widget. */
  datatype Fit = Fit(size: real, dx: real, dy: real)

  function Min(a: real, b: real): real {
    if a <= b then a else b
  }

  /** getIconSize: the stored size when one was requested, otherwise the smaller side
      of the widget; either way the square is centred on both axes. */
  function GetIconSize(requested: int, width: real, height: real): (f: Fit)
    ensures requested != Natural ==> f.size == requested as real
    ensures requested == Natural ==>
      f.size <= width && f.size <= height && (f.size == width || f.size == height)
    ensures f.dx + f.size / 2.0 == width / 2.0
    ensures f.dy + f.size / 2.0 == height / 2.0
  {
    var size := if requested == Natural then Min(width, height) else requested as real;
    Fit(size, (width - size) / 2.0, (height - size) / 2.0)
  }

  /** With no requested size the square touches two opposite sides of the widget and
      lies inside it: both offsets are non-negative and one of them is zero. */
  lemma NaturalFitsInside(width: real, height: real)
    ensures var f := GetIconSize(Natural, width, height);
      f.dx >= 0.0 && f.dy >= 0.0 && (f.dx == 0.0 || f.dy == 0.0)
  {
  }

  /** A widget sized by newIcon to the stored size is filled exactly: no offset. */
  lemma RequestedFillsWidget(iconSize: int, scaleFactor: nat)
    requires iconSize != Natural
    ensures var side := StoredSize(iconSize, scaleFactor);
      GetIconSize(side, side as real, side as real) == Fit((iconSize * scaleFactor) as real, 0.0, 0.0)
  {
  }
}
