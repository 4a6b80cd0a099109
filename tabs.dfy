/** What the taper, the turns and the positioning do to the glue tabs. */
module TabProofs {
  import opened Geometry
  import opened BoxLayout

  /** makeTab changes only the x-coordinates of the two top corners of the
      rectangle path: the bottom corners and every y-coordinate stay. */
  lemma TaperMovesOnlyTopCorners(bounds: Rect)
    ensures |Taper(bounds)| == 4
    ensures Taper(bounds)[0] == Corners(bounds)[0] && Taper(bounds)[3] == Corners(bounds)[3]
    ensures forall i :: 0 <= i < 4 ==> Taper(bounds)[i].y == Corners(bounds)[i].y
    ensures Taper(bounds)[1].x == bounds.x + bounds.height
    ensures Taper(bounds)[2].x == bounds.Right() - bounds.height
  {
  }

  /** makeTab makes an up-pointing tab: the trapezoid of reach `height`
      standing on the bottom edge of `bounds`. */
  lemma TaperIsUpTab(bounds: Rect)
    ensures Taper(bounds) == Trapezoid(Point(bounds.x, bounds.Bottom()), North, bounds.width, bounds.height)
  {
  }

  /** Across the tab, a tapered rectangle's points come in two pairs
      symmetric about x + width / 2; the wider pair gives the extremes. */
  lemma TaperCentreX(bounds: Rect)
    ensures Least(Taper(bounds), X) + Greatest(Taper(bounds), X) == 2.0 * bounds.x + bounds.width
  {
    var s := Taper(bounds);
    var x, w, h := bounds.x, bounds.width, bounds.height;
    assert Coord(s[0], X) == x && Coord(s[1], X) == x + h;
    assert Coord(s[2], X) == x + w - h && Coord(s[3], X) == x + w;
    if 0.0 <= h <= w {
      QuadExtremes(s, X, x, x + w);
    } else if w <= h <= 0.0 {
      QuadExtremes(s, X, x + w, x);
    } else if h <= w - h {
      QuadExtremes(s, X, x + h, x + w - h);
    } else {
      QuadExtremes(s, X, x + w - h, x + h);
    }
  }

  lemma TaperCentreY(bounds: Rect)
    ensures Least(Taper(bounds), Y) + Greatest(Taper(bounds), Y) == 2.0 * bounds.y + bounds.height
  {
    var s := Taper(bounds);
    var y, h := bounds.y, bounds.height;
    assert Coord(s[0], Y) == y + h && Coord(s[1], Y) == y;
    assert Coord(s[2], Y) == y && Coord(s[3], Y) == y + h;
    if 0.0 <= h {
      QuadExtremes(s, Y, y, y + h);
    } else {
      QuadExtremes(s, Y, y + h, y);
    }
  }

  /** The bounds of a tapered rectangle are centred where the rectangle is,
      whatever its size. */
  lemma TaperCentre(bounds: Rect)
    ensures Bounds(Taper(bounds)).Centre() == bounds.Centre()
  {
    TaperCentreX(bounds);
    TaperCentreY(bounds);
  }

  /** The tapered path keeps the bounds of its rectangle exactly when the
      rectangle is at least as wide as it is tall (and not upside down). */
  lemma TaperKeepsBounds(bounds: Rect)
    ensures Bounds(Taper(bounds)) == bounds <==> 0.0 <= bounds.height <= bounds.width
  {
    var s := Taper(bounds);
    var x, y, w, h := bounds.x, bounds.y, bounds.width, bounds.height;
    if 0.0 <= h <= w {
      QuadBounds(s, bounds);
    }
    if Bounds(s) == bounds {
      assert Coord(s[1], X) == x + h && Coord(s[2], X) == x + w - h;
      assert Least(s, X) <= Coord(s[2], X) && Coord(s[1], X) <= Greatest(s, X);
      assert Coord(s[0], Y) == y + h && Coord(s[1], Y) == y;
      assert Least(s, Y) <= Coord(s[1], Y) && Coord(s[0], Y) <= Greatest(s, Y);
    }
  }

  /** A tapered rectangle turned half round about its centre is the tab of
      the same reach hanging down from the rectangle's top edge. */
  lemma HalfTurnedTaper(b: Rect)
    ensures Rotated(Taper(b), Deg180) == Trapezoid(Point(b.Right(), b.y), South, b.width, b.height)
  {
    TaperCentre(b);
    var r := Rotated(Taper(b), Deg180);
    assert forall i :: 0 <= i < 4 ==> r[i] == Turned(Taper(b)[i], b.Centre(), Deg180);
    HalfTurnedCorners(b, r);
  }

  /** The corners of a tapered rectangle turned half round about its
      centre, point by point. */
  lemma HalfTurnedCorners(b: Rect, r: seq<Point>)
    requires |r| == 4
    requires forall i :: 0 <= i < 4 ==> r[i] == Turned(Taper(b)[i], b.Centre(), Deg180)
    ensures r == Trapezoid(Point(b.Right(), b.y), South, b.width, b.height)
  {
    var e := Trapezoid(Point(b.Right(), b.y), South, b.width, b.height);
    assert r[0] == e[0] && r[1] == e[1] && r[2] == e[2] && r[3] == e[3];
  }

  /** A tapered rectangle turned by a quarter turn and moved to `p`,
      point by point. */
  lemma QuarterTurnedTaper(b: Rect, t: Turn, p: Point)
    ensures MovedTo(Rotated(Taper(b), t), p) == QuarterTurnedCorners(b, t, p)
  {
    TaperCentre(b);
    TurnedThenMoved(Taper(b), b.Centre(), t, p);
  }

  /** The corners of a tapered rectangle turned about its centre and moved
      to `p`, for each quarter turn. */
  function QuarterTurnedCorners(b: Rect, t: Turn, p: Point): seq<Point> {
    [TurnedAndMoved(Taper(b)[0], b.Centre(), t, p), TurnedAndMoved(Taper(b)[1], b.Centre(), t, p),
     TurnedAndMoved(Taper(b)[2], b.Centre(), t, p), TurnedAndMoved(Taper(b)[3], b.Centre(), t, p)]
  }

  lemma LeftQuarterCorners(b: Rect, p: Point)
    ensures QuarterTurnedCorners(b, DegMinus90, p)
         == Trapezoid(Point(p.x + b.height / 2.0, p.y + b.width / 2.0), West, b.width, b.height)
  {
  }

  lemma RightQuarterCorners(b: Rect, p: Point)
    ensures QuarterTurnedCorners(b, Deg90, p)
         == Trapezoid(Point(p.x - b.height / 2.0, p.y - b.width / 2.0), East, b.width, b.height)
  {
  }

  /** A tapered rectangle turned by -90 degrees and moved to centre `p` is
      the tab pointing left whose base, of the rectangle's width, is centred
      half the reach to the right of `p`. */
  lemma QuarterTurnedLeftTaper(b: Rect, p: Point)
    ensures MovedTo(Rotated(Taper(b), DegMinus90), p)
         == Trapezoid(Point(p.x + b.height / 2.0, p.y + b.width / 2.0), West, b.width, b.height)
  {
    QuarterTurnedTaper(b, DegMinus90, p);
    LeftQuarterCorners(b, p);
  }

  /** A tapered rectangle turned by 90 degrees and moved to centre `p` is
      the tab pointing right whose base, of the rectangle's width, is
      centred half the reach to the left of `p`. */
  lemma QuarterTurnedRightTaper(b: Rect, p: Point)
    ensures MovedTo(Rotated(Taper(b), Deg90), p)
         == Trapezoid(Point(p.x - b.height / 2.0, p.y - b.width / 2.0), East, b.width, b.height)
  {
    QuarterTurnedTaper(b, Deg90, p);
    RightQuarterCorners(b, p);
  }

  /** A tab rectangle that spans the bottom edge of `r`, tapered and
      turned half round, is the tab hanging from that edge. */
  lemma HalfTurnOnSouthEdge(base: Rect, r: Rect)
    requires base.x == r.x && base.y == r.Bottom() && base.width == r.width
    ensures Rotated(Taper(base), Deg180) == EdgeTab(r, South, base.height)
  {
    HalfTurnedTaper(base);
  }

  /** A tab rectangle that sits on the top edge of `r`, tapered, is the tab
      standing on that edge. */
  lemma TaperOnNorthEdge(base: Rect, r: Rect)
    requires base.x == r.x && base.Bottom() == r.y && base.width == r.width
    ensures Taper(base) == EdgeTab(r, North, base.height)
  {
    TaperIsUpTab(base);
  }

  /** A tab rectangle as long as the left edge of `r`, tapered, turned by
      -90 degrees and centred half its reach to the left of that edge, is
      the tab standing on that edge. */
  lemma LeftTurnOnWestEdge(base: Rect, r: Rect, p: Point)
    requires base.width == r.height
    requires p.x + base.height / 2.0 == r.x && p.y + base.width / 2.0 == r.Bottom()
    ensures MovedTo(Rotated(Taper(base), DegMinus90), p) == EdgeTab(r, West, base.height)
  {
    var q := Point(p.x + base.height / 2.0, p.y + base.width / 2.0);
    assert Trapezoid(q, West, base.width, base.height) == EdgeTab(r, West, base.height);
    QuarterTurnedLeftTaper(base, p);
  }

  /** The mirror case: turned by 90 degrees and centred half its reach to
      the right of the right edge of `r`. */
  lemma RightTurnOnEastEdge(base: Rect, r: Rect, p: Point)
    requires base.width == r.height
    requires p.x - base.height / 2.0 == r.Right() && p.y - base.width / 2.0 == r.y
    ensures MovedTo(Rotated(Taper(base), Deg90), p) == EdgeTab(r, East, base.height)
  {
    var q := Point(p.x - base.height / 2.0, p.y - base.width / 2.0);
    assert Trapezoid(q, East, base.width, base.height) == EdgeTab(r, East, base.height);
    QuarterTurnedRightTaper(base, p);
  }

  /** The shape of a glue tab, measured along and across its panel edge:
      the base is the edge itself; the tip edge is parallel to it at
      distance `reach`, shorter by `reach` at each end (so its length is
      the edge length minus twice the reach, negative when the tip corners
      cross); the legs are equal. */
  lemma EdgeTabGeometry(r: Rect, side: Side, reach: real)
    ensures |EdgeTab(r, side, reach)| == 4
    ensures EdgeTab(r, side, reach)[0] == EdgeStart(r, side)
    ensures EdgeTab(r, side, reach)[3] == EdgeEnd(r, side)
    ensures Offset(EdgeTab(r, side, reach)[1], r, side) == reach == Offset(EdgeTab(r, side, reach)[2], r, side)
    ensures Run(side, EdgeTab(r, side, reach)[0], EdgeTab(r, side, reach)[3]) == EdgeLength(r, side)
    ensures Run(side, EdgeTab(r, side, reach)[1], EdgeTab(r, side, reach)[2]) == EdgeLength(r, side) - 2.0 * reach
    ensures Run(side, EdgeTab(r, side, reach)[0], EdgeTab(r, side, reach)[1]) == reach
    ensures Run(side, EdgeTab(r, side, reach)[2], EdgeTab(r, side, reach)[3]) == reach
  {
  }

  /** `q` lies in `r` or on its boundary. */
  predicate Inside(q: Point, r: Rect) {
    r.x <= q.x <= r.Right() && r.y <= q.y <= r.Bottom()
  }

  /** A tab of non-negative reach lies on the far side of the line of its
      edge, and its panel on the near side: every corner of the tab has an
      offset between 0 and the reach, every point of the panel an offset of
      at most 0. */
  lemma TabFacesAwayFromPanel(r: Rect, side: Side, reach: real, q: Point)
    requires 0.0 <= reach
    ensures forall i :: 0 <= i < |EdgeTab(r, side, reach)| ==> 0.0 <= Offset(EdgeTab(r, side, reach)[i], r, side) <= reach
    ensures Inside(q, r) ==> Offset(q, r, side) <= 0.0
  {
  }

  /** With a reach between 0 and the edge length, a tab's bounds are the
      band of thickness `reach` just outside its edge. */
  lemma StripBounds(r: Rect, side: Side, reach: real)
    requires 0.0 <= reach <= EdgeLength(r, side)
    ensures Bounds(EdgeTab(r, side, reach)) == Strip(r, side, reach)
  {
    QuadBounds(EdgeTab(r, side, reach), Strip(r, side, reach));
  }

  /** A tab's bounds are the band of thickness `reach` outside its edge
      exactly when the reach is at least 0 and at most the edge length. */
  lemma EdgeTabBounds(r: Rect, side: Side, reach: real)
    ensures Bounds(EdgeTab(r, side, reach)) == Strip(r, side, reach) <==> 0.0 <= reach <= EdgeLength(r, side)
  {
    if 0.0 <= reach <= EdgeLength(r, side) {
      StripBounds(r, side, reach);
    } else {
      var s := EdgeTab(r, side, reach);
      var lx, ly, gx, gy := Least(s, X), Least(s, Y), Greatest(s, X), Greatest(s, Y);
      assert lx <= Coord(s[0], X) && lx <= Coord(s[1], X) && lx <= Coord(s[2], X) && lx <= Coord(s[3], X);
      assert ly <= Coord(s[0], Y) && ly <= Coord(s[1], Y) && ly <= Coord(s[2], Y) && ly <= Coord(s[3], Y);
      assert gx >= Coord(s[0], X) && gx >= Coord(s[1], X) && gx >= Coord(s[2], X) && gx >= Coord(s[3], X);
      assert gy >= Coord(s[0], Y) && gy >= Coord(s[1], Y) && gy >= Coord(s[2], Y) && gy >= Coord(s[3], Y);
    }
  }
}
