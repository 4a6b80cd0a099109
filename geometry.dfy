/** Plane geometry as the drawing library sees it: coordinates are reals,
    y grows downward, a path is the list of its segment points, and the
    bounds of a path are the smallest axis-aligned rectangle that holds
    every segment point (the paths here have straight sides only). */
module Geometry {

  datatype Point = Point(x: real, y: real)

  /** A rectangle given by its top-left corner and its size. */
  datatype Rect = Rect(x: real, y: real, width: real, height: real) {
    function Right(): real { x + width }
    function Bottom(): real { y + height }
    function Centre(): Point { Point(x + width / 2.0, y + height / 2.0) }
    function Area(): real { width * height }
  }

  /** The corners of a rectangle path, in the order the library creates
      them: bottom-left, top-left, top-right, bottom-right. */
  function Corners(r: Rect): seq<Point> {
    [Point(r.x, r.Bottom()), Point(r.x, r.y), Point(r.Right(), r.y), Point(r.Right(), r.Bottom())]
  }

  datatype Axis = X | Y

  function Coord(p: Point, a: Axis): real {
    match a
    case X => p.x
    case Y => p.y
  }

  /** The smallest coordinate along `a` among the points of `s`. */
  function Least(s: seq<Point>, a: Axis): (m: real)
    requires |s| > 0
    ensures forall i :: 0 <= i < |s| ==> m <= Coord(s[i], a)
    ensures exists i :: 0 <= i < |s| && Coord(s[i], a) == m
    decreases |s|
  {
    if |s| == 1 then Coord(s[0], a)
    else
      var rest := Least(s[1..], a);
      assert forall i :: 1 <= i < |s| ==> s[i] == s[1..][i - 1];
      if Coord(s[0], a) <= rest then Coord(s[0], a) else rest
  }

  /** The largest coordinate along `a` among the points of `s`. */
  function Greatest(s: seq<Point>, a: Axis): (m: real)
    requires |s| > 0
    ensures forall i :: 0 <= i < |s| ==> Coord(s[i], a) <= m
    ensures exists i :: 0 <= i < |s| && Coord(s[i], a) == m
    decreases |s|
  {
    if |s| == 1 then Coord(s[0], a)
    else
      var rest := Greatest(s[1..], a);
      assert forall i :: 1 <= i < |s| ==> s[i] == s[1..][i - 1];
      if rest <= Coord(s[0], a) then Coord(s[0], a) else rest
  }

  /** The bounds of a path. */
  function Bounds(s: seq<Point>): Rect
    requires |s| > 0
  {
    Rect(Least(s, X), Least(s, Y), Greatest(s, X) - Least(s, X), Greatest(s, Y) - Least(s, Y))
  }

  /** `lo` and `hi` are the extremes along `a` once they bound every point
      and both are attained. */
  lemma ExtremesAre(s: seq<Point>, a: Axis, lo: real, hi: real)
    requires |s| > 0
    requires forall i :: 0 <= i < |s| ==> lo <= Coord(s[i], a) <= hi
    requires exists i :: 0 <= i < |s| && Coord(s[i], a) == lo
    requires exists i :: 0 <= i < |s| && Coord(s[i], a) == hi
    ensures Least(s, a) == lo && Greatest(s, a) == hi
  {
  }

  /** The same for a path of four points, stated point by point. */
  lemma QuadExtremes(s: seq<Point>, a: Axis, lo: real, hi: real)
    requires |s| == 4
    requires lo <= Coord(s[0], a) <= hi && lo <= Coord(s[1], a) <= hi
    requires lo <= Coord(s[2], a) <= hi && lo <= Coord(s[3], a) <= hi
    requires Coord(s[0], a) == lo || Coord(s[1], a) == lo || Coord(s[2], a) == lo || Coord(s[3], a) == lo
    requires Coord(s[0], a) == hi || Coord(s[1], a) == hi || Coord(s[2], a) == hi || Coord(s[3], a) == hi
    ensures Least(s, a) == lo && Greatest(s, a) == hi
  {
    forall i | 0 <= i < |s|
      ensures lo <= Coord(s[i], a) <= hi
    {
      if i == 0 {} else if i == 1 {} else if i == 2 {} else {}
    }
    ExtremesAre(s, a, lo, hi);
  }

  /** Four points lying in `b`, with each side of `b` touched by one of
      them, have `b` as their bounds. */
  lemma QuadBounds(s: seq<Point>, b: Rect)
    requires |s| == 4
    requires b.x <= s[0].x <= b.Right() && b.x <= s[1].x <= b.Right()
    requires b.x <= s[2].x <= b.Right() && b.x <= s[3].x <= b.Right()
    requires b.y <= s[0].y <= b.Bottom() && b.y <= s[1].y <= b.Bottom()
    requires b.y <= s[2].y <= b.Bottom() && b.y <= s[3].y <= b.Bottom()
    requires s[0].x == b.x || s[1].x == b.x || s[2].x == b.x || s[3].x == b.x
    requires s[0].x == b.Right() || s[1].x == b.Right() || s[2].x == b.Right() || s[3].x == b.Right()
    requires s[0].y == b.y || s[1].y == b.y || s[2].y == b.y || s[3].y == b.y
    requires s[0].y == b.Bottom() || s[1].y == b.Bottom() || s[2].y == b.Bottom() || s[3].y == b.Bottom()
    ensures Bounds(s) == b
  {
    QuadExtremes(s, X, b.x, b.Right());
    QuadExtremes(s, Y, b.y, b.Bottom());
    BoundsFromExtremes(s, b);
  }

  /** A path whose extremes are the sides of `b` has `b` as its bounds. */
  lemma BoundsFromExtremes(s: seq<Point>, b: Rect)
    requires |s| > 0
    requires Least(s, X) == b.x && Greatest(s, X) == b.Right()
    requires Least(s, Y) == b.y && Greatest(s, Y) == b.Bottom()
    ensures Bounds(s) == b
  {
  }

  /** A rectangle path's bounds are the rectangle, when its size is not negative. */
  lemma CornersBounds(r: Rect)
    requires r.width >= 0.0 && r.height >= 0.0
    ensures Bounds(Corners(r)) == r
  {
    QuadBounds(Corners(r), r);
  }

  /** If every point of `r` has coordinate `k + c` along `a`, where `c` is the
      coordinate of the matching point of `s` along `b`, the extremes shift by `k`. */
  lemma ShiftedExtremes(s: seq<Point>, r: seq<Point>, a: Axis, b: Axis, k: real)
    requires |s| == |r| > 0
    requires forall i :: 0 <= i < |s| ==> Coord(r[i], a) == k + Coord(s[i], b)
    ensures Least(r, a) == k + Least(s, b) && Greatest(r, a) == k + Greatest(s, b)
  {
    var lo :| 0 <= lo < |s| && Coord(s[lo], b) == Least(s, b);
    var hi :| 0 <= hi < |s| && Coord(s[hi], b) == Greatest(s, b);
    assert Coord(r[lo], a) == k + Least(s, b);
    assert Coord(r[hi], a) == k + Greatest(s, b);
    ExtremesAre(r, a, k + Least(s, b), k + Greatest(s, b));
  }

  /** If every point of `r` has coordinate `k - c` along `a`, where `c` is the
      coordinate of the matching point of `s` along `b`, the extremes swap. */
  lemma ReflectedExtremes(s: seq<Point>, r: seq<Point>, a: Axis, b: Axis, k: real)
    requires |s| == |r| > 0
    requires forall i :: 0 <= i < |s| ==> Coord(r[i], a) == k - Coord(s[i], b)
    ensures Least(r, a) == k - Greatest(s, b) && Greatest(r, a) == k - Least(s, b)
  {
    var lo :| 0 <= lo < |s| && Coord(s[lo], b) == Least(s, b);
    var hi :| 0 <= hi < |s| && Coord(s[hi], b) == Greatest(s, b);
    assert Coord(r[hi], a) == k - Greatest(s, b);
    assert Coord(r[lo], a) == k - Least(s, b);
    ExtremesAre(r, a, k - Greatest(s, b), k - Least(s, b));
  }

  /** The rotations the layout assigns to a path, named by their angle in
      degrees; a positive angle turns clockwise on screen, because y grows
      downward. */
  datatype Turn = Deg90 | DegMinus90 | Deg180 {
    function Cos(): real {
      match this
      case Deg90 => 0.0
      case DegMinus90 => 0.0
      case Deg180 => -1.0
    }
    function Sin(): real {
      match this
      case Deg90 => 1.0
      case DegMinus90 => -1.0
      case Deg180 => 0.0
    }
  }

  /** `p` turned about `c`, written out exactly for each of the three angles. */
  function Turned(p: Point, c: Point, t: Turn): Point {
    match t
    case Deg180 => Point(2.0 * c.x - p.x, 2.0 * c.y - p.y)
    case Deg90 => Point(c.x - (p.y - c.y), c.y + (p.x - c.x))
    case DegMinus90 => Point(c.x + (p.y - c.y), c.y - (p.x - c.x))
  }

  /** The exact maps are the library's rotation matrix at the three angles,
      and the two quarter turns undo each other. */
  lemma TurnedIsRotation(p: Point, c: Point, t: Turn)
    ensures Turned(p, c, t)
         == Point(c.x + (p.x - c.x) * t.Cos() - (p.y - c.y) * t.Sin(),
                  c.y + (p.x - c.x) * t.Sin() + (p.y - c.y) * t.Cos())
    ensures Turned(Turned(p, c, Deg90), c, DegMinus90) == p
    ensures Turned(Turned(p, c, DegMinus90), c, Deg90) == p
    ensures Turned(Turned(p, c, Deg90), c, Deg90) == Turned(p, c, Deg180)
    ensures Turned(Turned(p, c, Deg180), c, Deg180) == p
  {
  }

  /** Assigning a rotation to a fresh path: every segment point turns about
      the centre of the path's bounds. */
  function Rotated(s: seq<Point>, t: Turn): (r: seq<Point>)
    requires |s| > 0
    ensures |r| == |s|
  {
    var c := Bounds(s).Centre();
    seq(|s|, i requires 0 <= i < |s| => Turned(s[i], c, t))
  }

  function Translated(s: seq<Point>, dx: real, dy: real): (r: seq<Point>)
    ensures |r| == |s|
  {
    seq(|s|, i requires 0 <= i < |s| => Point(s[i].x + dx, s[i].y + dy))
  }

  /** Assigning a position to a path: it moves so that the centre of its
      bounds lands on `p`. */
  function MovedTo(s: seq<Point>, p: Point): (r: seq<Point>)
    requires |s| > 0
    ensures |r| == |s|
  {
    var c := Bounds(s).Centre();
    Translated(s, p.x - c.x, p.y - c.y)
  }

  /** Turning a path about its bounds centre keeps that centre; a half turn
      keeps the size of the bounds, a quarter turn swaps width and height. */
  lemma RotatedBounds(s: seq<Point>, t: Turn)
    requires |s| > 0
    ensures Bounds(Rotated(s, t)).Centre() == Bounds(s).Centre()
    ensures t == Deg180 ==> Bounds(Rotated(s, t)) == Bounds(s)
    ensures t != Deg180 ==>
              Bounds(Rotated(s, t)).width == Bounds(s).height && Bounds(Rotated(s, t)).height == Bounds(s).width
  {
    var r := Rotated(s, t);
    assert forall i :: 0 <= i < |s| ==> r[i] == Turned(s[i], Bounds(s).Centre(), t);
    TurnedBounds(s, r, t);
  }

  /** The same for any path `r` whose points are those of `s`, turned. */
  lemma TurnedBounds(s: seq<Point>, r: seq<Point>, t: Turn)
    requires |s| == |r| > 0
    requires forall i :: 0 <= i < |s| ==> r[i] == Turned(s[i], Bounds(s).Centre(), t)
    ensures Bounds(r).Centre() == Bounds(s).Centre()
    ensures t == Deg180 ==> Bounds(r) == Bounds(s)
    ensures t != Deg180 ==> Bounds(r).width == Bounds(s).height && Bounds(r).height == Bounds(s).width
  {
    var c := Bounds(s).Centre();
    TurnedExtremes(s, r, c, t);
    CentreOfBounds(s);
    CentreOfBounds(r);
  }

  /** The centre of a path's bounds lies midway between its extremes. */
  lemma CentreOfBounds(s: seq<Point>)
    requires |s| > 0
    ensures Bounds(s).Centre()
         == Point((Least(s, X) + Greatest(s, X)) / 2.0, (Least(s, Y) + Greatest(s, Y)) / 2.0)
  {
  }

  /** Where the extremes of a path go when every point is turned about `c`:
      a half turn reflects both axes, a quarter turn reflects one axis onto
      the other and shifts the other onto the first. */
  lemma TurnedExtremes(s: seq<Point>, r: seq<Point>, c: Point, t: Turn)
    requires |s| == |r| > 0
    requires forall i :: 0 <= i < |s| ==> r[i] == Turned(s[i], c, t)
    ensures t == Deg180 ==>
      Least(r, X) == 2.0 * c.x - Greatest(s, X) && Greatest(r, X) == 2.0 * c.x - Least(s, X) &&
      Least(r, Y) == 2.0 * c.y - Greatest(s, Y) && Greatest(r, Y) == 2.0 * c.y - Least(s, Y)
    ensures t == Deg90 ==>
      Least(r, X) == c.x + c.y - Greatest(s, Y) && Greatest(r, X) == c.x + c.y - Least(s, Y) &&
      Least(r, Y) == c.y - c.x + Least(s, X) && Greatest(r, Y) == c.y - c.x + Greatest(s, X)
    ensures t == DegMinus90 ==>
      Least(r, X) == c.x - c.y + Least(s, Y) && Greatest(r, X) == c.x - c.y + Greatest(s, Y) &&
      Least(r, Y) == c.y + c.x - Greatest(s, X) && Greatest(r, Y) == c.y + c.x - Least(s, X)
  {
    match t
    case Deg180 =>
      ReflectedExtremes(s, r, X, X, 2.0 * c.x);
      ReflectedExtremes(s, r, Y, Y, 2.0 * c.y);
    case Deg90 =>
      ReflectedExtremes(s, r, X, Y, c.x + c.y);
      ShiftedExtremes(s, r, Y, X, c.y - c.x);
    case DegMinus90 =>
      ShiftedExtremes(s, r, X, Y, c.x - c.y);
      ReflectedExtremes(s, r, Y, X, c.y + c.x);
  }

  /** After a move to `p` the bounds keep their size and are centred on `p`. */
  lemma MovedToBounds(s: seq<Point>, p: Point)
    requires |s| > 0
    ensures Bounds(MovedTo(s, p)).Centre() == p
    ensures Bounds(MovedTo(s, p)).width == Bounds(s).width
    ensures Bounds(MovedTo(s, p)).height == Bounds(s).height
  {
    var c := Bounds(s).Centre();
    var r := MovedTo(s, p);
    ShiftedExtremes(s, r, X, X, p.x - c.x);
    ShiftedExtremes(s, r, Y, Y, p.y - c.y);
  }

  /** Where a point lands when its path, whose bounds are centred on `c`,
      is turned by `t` and then moved to `p`. */
  function TurnedAndMoved(q: Point, c: Point, t: Turn, p: Point): Point {
    Point(Turned(q, c, t).x + p.x - c.x, Turned(q, c, t).y + p.y - c.y)
  }

  /** Turning a four-point path and then moving it to `p`, point by point. */
  lemma TurnedThenMoved(s: seq<Point>, c: Point, t: Turn, p: Point)
    requires |s| == 4 && Bounds(s).Centre() == c
    ensures MovedTo(Rotated(s, t), p)
         == [TurnedAndMoved(s[0], c, t, p), TurnedAndMoved(s[1], c, t, p),
             TurnedAndMoved(s[2], c, t, p), TurnedAndMoved(s[3], c, t, p)]
  {
    var q := Rotated(s, t);
    RotatedBounds(s, t);
    assert forall i :: 0 <= i < 4 ==> q[i] == Turned(s[i], c, t);
    MovedPoints(q, c, p);
    ShiftedTurnedPoints(s, q, MovedTo(q, p), c, t, p);
  }

  /** Moving a four-point path whose bounds are centred on `c` to `p` shifts
      each point by `p - c`. */
  lemma MovedPoints(q: seq<Point>, c: Point, p: Point)
    requires |q| == 4 && Bounds(q).Centre() == c
    ensures MovedTo(q, p)
         == [Point(q[0].x + p.x - c.x, q[0].y + p.y - c.y), Point(q[1].x + p.x - c.x, q[1].y + p.y - c.y),
             Point(q[2].x + p.x - c.x, q[2].y + p.y - c.y), Point(q[3].x + p.x - c.x, q[3].y + p.y - c.y)]
  {
    var m := MovedTo(q, p);
    assert m[0] == Point(q[0].x + p.x - c.x, q[0].y + p.y - c.y);
    assert m[1] == Point(q[1].x + p.x - c.x, q[1].y + p.y - c.y);
    assert m[2] == Point(q[2].x + p.x - c.x, q[2].y + p.y - c.y);
    assert m[3] == Point(q[3].x + p.x - c.x, q[3].y + p.y - c.y);
  }

  /** Four turned points, each then shifted by `p - c`, point by point. */
  lemma ShiftedTurnedPoints(s: seq<Point>, q: seq<Point>, m: seq<Point>, c: Point, t: Turn, p: Point)
    requires |s| == 4 && |q| == 4
    requires forall i :: 0 <= i < 4 ==> q[i] == Turned(s[i], c, t)
    requires m == [Point(q[0].x + p.x - c.x, q[0].y + p.y - c.y), Point(q[1].x + p.x - c.x, q[1].y + p.y - c.y),
                   Point(q[2].x + p.x - c.x, q[2].y + p.y - c.y), Point(q[3].x + p.x - c.x, q[3].y + p.y - c.y)]
    ensures m == [TurnedAndMoved(s[0], c, t, p), TurnedAndMoved(s[1], c, t, p),
                  TurnedAndMoved(s[2], c, t, p), TurnedAndMoved(s[3], c, t, p)]
  {
    assert q[0] == Turned(s[0], c, t) && q[1] == Turned(s[1], c, t);
    assert q[2] == Turned(s[2], c, t) && q[3] == Turned(s[3], c, t);
  }
}
