/** What the six panel rectangles of the net promise: they do not
    overlap, the folds are full shared edges, opposite faces match and
    their areas add up to the surface of the box. */
module PanelProofs {
  import opened Geometry
  import opened BoxLayout

  /** The side of a rectangle facing the given one. */
  function Opposite(side: Side): Side {
    match side
    case North => South
    case East => West
    case South => North
    case West => East
  }

  /** `a` and `b` meet along the whole of `a`'s `side` edge and the whole of
      `b`'s opposite edge: the two edges are one segment, walked in
      opposite directions. */
  predicate Adjoin(a: Rect, side: Side, b: Rect) {
    EdgeStart(a, side) == EdgeEnd(b, Opposite(side)) && EdgeEnd(a, side) == EdgeStart(b, Opposite(side))
  }

  /** `b` hangs below `a` or sits to its right, sharing a full edge: a fold. */
  predicate SharesFullEdge(a: Rect, b: Rect) {
    Adjoin(a, South, b) || Adjoin(a, East, b)
  }

  /** The folds of the net: down the spine, and out from the bottom panel
      to the left and right panels. */
  predicate Hinge(f: Face, g: Face) {
    (f, g) in {(Front, Bottom), (Bottom, Back), (Back, Top), (Left, Bottom), (Bottom, Right)}
  }

  /** For positive dimensions no two panels overlap. */
  lemma PanelsDisjoint(dims: Dims, f: Face, g: Face)
    requires dims.Positive() && f != g
    ensures !InteriorsMeet(PanelRect(f, dims), PanelRect(g, dims))
  {
  }

  /** The spine panels are stacked in consecutive bands of height h, d, h, d
      over the same columns [h, h + w]. */
  lemma SpineStacked(dims: Dims)
    ensures PanelRect(Front, dims).y == 0.0
    ensures PanelRect(Bottom, dims).y == PanelRect(Front, dims).Bottom()
    ensures PanelRect(Back, dims).y == PanelRect(Bottom, dims).Bottom()
    ensures PanelRect(Top, dims).y == PanelRect(Back, dims).Bottom()
    ensures PanelRect(Top, dims).Bottom() == 2.0 * dims.height + 2.0 * dims.depth
    ensures forall f :: f in {Front, Bottom, Back, Top} ==>
      PanelRect(f, dims).x == dims.height && PanelRect(f, dims).Right() == dims.height + dims.width
  {
  }

  /** For positive dimensions two panels share a full edge exactly at the
      five folds; the spine folds are w long and the side folds d long. */
  lemma PanelHinges(dims: Dims, f: Face, g: Face)
    requires dims.Positive()
    ensures SharesFullEdge(PanelRect(f, dims), PanelRect(g, dims)) <==> Hinge(f, g)
    ensures Hinge(f, g) && f != Left && g != Right ==>
      Adjoin(PanelRect(f, dims), South, PanelRect(g, dims)) && EdgeLength(PanelRect(f, dims), South) == dims.width
    ensures Hinge(f, g) && (f == Left || g == Right) ==>
      Adjoin(PanelRect(f, dims), East, PanelRect(g, dims)) && EdgeLength(PanelRect(f, dims), East) == dims.depth
  {
  }

  /** Opposite faces are congruent: front and back are w by h, bottom and
      top w by d, left and right h by d. */
  lemma OppositeFacesCongruent(dims: Dims)
    ensures PanelRect(Front, dims).width == PanelRect(Back, dims).width == dims.width
    ensures PanelRect(Front, dims).height == PanelRect(Back, dims).height == dims.height
    ensures PanelRect(Bottom, dims).width == PanelRect(Top, dims).width == dims.width
    ensures PanelRect(Bottom, dims).height == PanelRect(Top, dims).height == dims.depth
    ensures PanelRect(Left, dims).width == PanelRect(Right, dims).width == dims.height
    ensures PanelRect(Left, dims).height == PanelRect(Right, dims).height == dims.depth
  {
  }

  /** The panels' areas add up to the surface area of the box. */
  lemma PanelArea(dims: Dims)
    ensures PanelRect(Front, dims).Area() + PanelRect(Bottom, dims).Area() + PanelRect(Back, dims).Area()
          + PanelRect(Top, dims).Area() + PanelRect(Left, dims).Area() + PanelRect(Right, dims).Area()
         == 2.0 * (dims.width * dims.height + dims.width * dims.depth + dims.height * dims.depth)
  {
  }

  /** Every panel path's bounds are its rectangle, for non-negative sizes. */
  lemma PanelBounds(f: Face, dims: Dims)
    requires dims.width >= 0.0 && dims.height >= 0.0 && dims.depth >= 0.0
    ensures Bounds(PanelShape(f, dims).segments) == PanelRect(f, dims)
  {
    CornersBounds(PanelRect(f, dims));
  }

  /** The six panels, as the first six children of the group. */
  function Panels(dims: Dims): (s: seq<Shape>)
    ensures |s| == 6
    ensures forall i :: 0 <= i < 6 ==> |s[i].segments| == 4
  {
    [PanelShape(Front, dims), PanelShape(Bottom, dims), PanelShape(Back, dims),
     PanelShape(Top, dims), PanelShape(Left, dims), PanelShape(Right, dims)]
  }

  /** `Panels` is the group's first six children, whatever the tab reach. */
  lemma PanelsLeadPattern(dims: Dims, tabWidth: real)
    ensures Pattern(dims, tabWidth)[..6] == Panels(dims)
  {
    forall i | 0 <= i < 6
      ensures Pattern(dims, tabWidth)[i] == Panels(dims)[i]
    {
    }
  }

  /** The six panel rectangles, in the order of the group. */
  function PanelRects(dims: Dims): seq<Rect> {
    [PanelRect(Front, dims), PanelRect(Bottom, dims), PanelRect(Back, dims),
     PanelRect(Top, dims), PanelRect(Left, dims), PanelRect(Right, dims)]
  }

  /** The bounds of the six panel paths are the six panel rectangles. */
  lemma PanelChildBounds(dims: Dims, i: int)
    requires dims.width >= 0.0 && dims.height >= 0.0 && dims.depth >= 0.0
    requires 0 <= i < 6
    ensures Bounds(Panels(dims)[i].segments) == PanelRects(dims)[i]
  {
    var f := [Front, Bottom, Back, Top, Left, Right][i];
    assert Panels(dims)[i] == PanelShape(f, dims) && PanelRects(dims)[i] == PanelRect(f, dims);
    PanelBounds(f, dims);
  }

  /** The hull of the six panel rectangles, built up from the right panel
      back to the front one. */
  lemma PanelRectsHull(rs: seq<Rect>, dims: Dims)
    requires dims.width >= 0.0 && dims.height >= 0.0 && dims.depth >= 0.0
    requires rs == PanelRects(dims)
    ensures Hull(rs) == Rect(0.0, 0.0, 2.0 * dims.height + dims.width, 2.0 * dims.height + 2.0 * dims.depth)
  {
    var w, h, d := dims.width, dims.height, dims.depth;
    var sides := Rect(0.0, h, 2.0 * h + w, d);
    var below := Rect(0.0, h, 2.0 * h + w, h + 2.0 * d);
    assert rs[5..] == [rs[5]];
    HullStep(rs, 4, rs[5]);
    assert Join(rs[4], rs[5]) == sides;
    HullStep(rs, 3, sides);
    assert Join(rs[3], sides) == below;
    HullStep(rs, 2, below);
    assert Join(rs[2], below) == below;
    HullStep(rs, 1, below);
    assert Join(rs[1], below) == below;
    HullStep(rs, 0, below);
  }

  /** The hull of a list from position `k` joins its first rectangle to the
      hull of the rest. */
  lemma HullStep(rs: seq<Rect>, k: int, rest: Rect)
    requires 0 <= k < |rs| - 1 && Hull(rs[k + 1..]) == rest
    ensures Hull(rs[k..]) == Join(rs[k], rest)
  {
    assert rs[k..][1..] == rs[k + 1..];
  }

  /** The panels alone span [0, 2h + w] across and [0, 2h + 2d] down. */
  lemma PanelHull(dims: Dims)
    requires dims.width >= 0.0 && dims.height >= 0.0 && dims.depth >= 0.0
    ensures GroupBounds(Panels(dims))
         == Rect(0.0, 0.0, 2.0 * dims.height + dims.width, 2.0 * dims.height + 2.0 * dims.depth)
  {
    forall i | 0 <= i < 6
      ensures Bounds(Panels(dims)[i].segments) == PanelRects(dims)[i]
    {
      PanelChildBounds(dims, i);
    }
    GroupBoundsIsHull(Panels(dims), PanelRects(dims));
    PanelRectsHull(PanelRects(dims), dims);
  }
}
