/** What makeBoxPattern promises about its tabs and its group as a whole:
    each tab stands on a panel edge of its own length, the tabs fit their
    edges under a stated condition, nothing overlaps, the net is mirror
    symmetric, and the group holds thirteen distinctly named children. */
module PatternProofs {
  import opened Geometry
  import opened BoxLayout
  import opened TabProofs
  import opened PanelProofs

  /** The length of the panel edge each tab is glued to. */
  function Span(f: Flap, dims: Dims): real {
    match f
    case TopTab1 => dims.width
    case LeftTab1 => dims.height
    case LeftTab2 => dims.height
    case RightTab1 => dims.height
    case RightTab2 => dims.height
    case LeftTab3 => dims.depth
    case RightTab3 => dims.depth
  }

  /** Each tab's long edge is exactly its host panel's edge, as long as that
      edge (w for the top tab, h for the four tabs on the side panels' short
      edges, d for the two tabs on their long edges); its tip edge lies
      `tabWidth` beyond, `tabWidth` shorter at each end. */
  lemma TabOnPanelEdge(f: Flap, dims: Dims, tabWidth: real)
    ensures |PlacedTab(f, dims, tabWidth)| == 4
    ensures PlacedTab(f, dims, tabWidth)[0] == EdgeStart(PanelRect(Host(f), dims), HostSide(f))
    ensures PlacedTab(f, dims, tabWidth)[3] == EdgeEnd(PanelRect(Host(f), dims), HostSide(f))
    ensures Run(HostSide(f), PlacedTab(f, dims, tabWidth)[0], PlacedTab(f, dims, tabWidth)[3]) == Span(f, dims)
    ensures Run(HostSide(f), PlacedTab(f, dims, tabWidth)[1], PlacedTab(f, dims, tabWidth)[2]) == Span(f, dims) - 2.0 * tabWidth
    ensures Offset(PlacedTab(f, dims, tabWidth)[1], PanelRect(Host(f), dims), HostSide(f)) == tabWidth
    ensures Offset(PlacedTab(f, dims, tabWidth)[2], PanelRect(Host(f), dims), HostSide(f)) == tabWidth
  {
    HostSpan(f, dims);
    EdgeTabGeometry(PanelRect(Host(f), dims), HostSide(f), tabWidth);
  }

  /** The edge each tab stands on is w long for the top tab, h for the four
      tabs on the side panels' short edges and d for the two on their long
      edges. */
  lemma HostSpan(f: Flap, dims: Dims)
    ensures EdgeLength(PanelRect(Host(f), dims), HostSide(f)) == Span(f, dims)
  {
  }

  /** The makeTab doc-comment asks for a rectangle at least twice as wide
      as it is tall; every tab rectangle meets it exactly when each box
      dimension is at least twice the tab width. */
  lemma TabsFit(dims: Dims, tabWidth: real)
    ensures (forall f :: TabBase(f, dims, tabWidth).width >= 2.0 * TabBase(f, dims, tabWidth).height)
        <==> dims.width >= 2.0 * tabWidth && dims.height >= 2.0 * tabWidth && dims.depth >= 2.0 * tabWidth
  {
    if forall f :: TabBase(f, dims, tabWidth).width >= 2.0 * TabBase(f, dims, tabWidth).height {
      assert TabBase(TopTab1, dims, tabWidth).width >= 2.0 * TabBase(TopTab1, dims, tabWidth).height;
      assert TabBase(LeftTab1, dims, tabWidth).width >= 2.0 * TabBase(LeftTab1, dims, tabWidth).height;
      assert TabBase(LeftTab3, dims, tabWidth).width >= 2.0 * TabBase(LeftTab3, dims, tabWidth).height;
    }
  }

  /** Each tab rectangle is as wide as the edge its tab ends up on, and as
      tall as the tab width. */
  lemma TabBaseSpan(f: Flap, dims: Dims, tabWidth: real)
    ensures TabBase(f, dims, tabWidth).width == Span(f, dims)
    ensures TabBase(f, dims, tabWidth).height == tabWidth
  {
  }

  /** With a tab width between 0 and its edge's length, a tab's bounds are
      the band of that width just outside the edge. */
  lemma TabBounds(f: Flap, dims: Dims, tabWidth: real)
    requires 0.0 <= tabWidth <= Span(f, dims)
    ensures Bounds(PlacedTab(f, dims, tabWidth)) == Strip(PanelRect(Host(f), dims), HostSide(f), tabWidth)
  {
    StripBounds(PanelRect(Host(f), dims), HostSide(f), tabWidth);
  }

  /** The band outside a tab's edge meets no panel, for positive
      dimensions and a positive band width at most the edge length. */
  lemma StripClearOfPanels(f: Flap, g: Face, dims: Dims, tabWidth: real)
    requires dims.Positive() && 0.0 < tabWidth <= Span(f, dims)
    ensures !InteriorsMeet(Strip(PanelRect(Host(f), dims), HostSide(f), tabWidth), PanelRect(g, dims))
  {
  }

  /** The bands outside two different tabs' edges do not meet. */
  lemma StripsClearOfEachOther(f: Flap, g: Flap, dims: Dims, tabWidth: real)
    requires dims.Positive() && f != g
    requires 0.0 < tabWidth <= Span(f, dims) && tabWidth <= Span(g, dims)
    ensures !InteriorsMeet(Strip(PanelRect(Host(f), dims), HostSide(f), tabWidth),
                           Strip(PanelRect(Host(g), dims), HostSide(g), tabWidth))
  {
  }

  /** No tab overlaps any panel, when the dimensions are positive and the
      tab width is positive and at most the tab's edge length. */
  lemma TabClearOfPanels(f: Flap, g: Face, dims: Dims, tabWidth: real)
    requires dims.Positive() && 0.0 < tabWidth <= Span(f, dims)
    ensures !InteriorsMeet(Bounds(PlacedTab(f, dims, tabWidth)), PanelRect(g, dims))
  {
    TabBounds(f, dims, tabWidth);
    StripClearOfPanels(f, g, dims, tabWidth);
  }

  /** No two tabs overlap, under the same conditions. */
  lemma EdgeTabsApart(f: Flap, g: Flap, dims: Dims, tabWidth: real)
    requires dims.Positive() && f != g
    requires 0.0 < tabWidth <= Span(f, dims) && tabWidth <= Span(g, dims)
    ensures !InteriorsMeet(Bounds(EdgeTab(PanelRect(Host(f), dims), HostSide(f), tabWidth)),
                           Bounds(EdgeTab(PanelRect(Host(g), dims), HostSide(g), tabWidth)))
  {
    HostSpan(f, dims);
    HostSpan(g, dims);
    StripBounds(PanelRect(Host(f), dims), HostSide(f), tabWidth);
    StripBounds(PanelRect(Host(g), dims), HostSide(g), tabWidth);
    StripsClearOfEachOther(f, g, dims, tabWidth);
  }

  /** Every corner of a tab of positive width lies on the far side of the
      line of its edge from its panel, at most the tab width away. */
  lemma TabOutsideItsPanel(f: Flap, dims: Dims, tabWidth: real, i: int, q: Point)
    requires 0.0 <= tabWidth && 0 <= i < 4
    ensures 0.0 <= Offset(PlacedTab(f, dims, tabWidth)[i], PanelRect(Host(f), dims), HostSide(f)) <= tabWidth
    ensures Inside(q, PanelRect(Host(f), dims)) ==> Offset(q, PanelRect(Host(f), dims), HostSide(f)) <= 0.0
  {
    TabFacesAwayFromPanel(PanelRect(Host(f), dims), HostSide(f), tabWidth, q);
  }

  // ---------------------------------------------------------------------
  // Mirror symmetry about the vertical line x = h + w / 2.

  function MirrorPoint(p: Point, k: real): Point {
    Point(k - p.x, p.y)
  }

  /** A path reflected in the line x = k / 2, listed backwards so that it
      keeps its winding and its first point. */
  function MirrorPath(s: seq<Point>, k: real): (r: seq<Point>)
    ensures |r| == |s|
  {
    seq(|s|, i requires 0 <= i < |s| => MirrorPoint(s[|s| - 1 - i], k))
  }

  function MirrorRect(r: Rect, k: real): Rect {
    Rect(k - r.Right(), r.y, r.width, r.height)
  }

  function MirrorSide(side: Side): Side {
    match side
    case East => West
    case West => East
    case North => North
    case South => South
  }

  function MirrorFace(f: Face): Face {
    match f
    case Left => Right
    case Right => Left
    case _ => f
  }

  function MirrorFlap(f: Flap): Flap {
    match f
    case TopTab1 => TopTab1
    case LeftTab1 => RightTab1
    case LeftTab2 => RightTab2
    case LeftTab3 => RightTab3
    case RightTab1 => LeftTab1
    case RightTab2 => LeftTab2
    case RightTab3 => LeftTab3
  }

  /** Reflecting twice gives the path back. */
  lemma MirrorPathInvolution(s: seq<Point>, k: real)
    ensures MirrorPath(MirrorPath(s, k), k) == s
  {
    var m := MirrorPath(s, k);
    forall i | 0 <= i < |s|
      ensures MirrorPath(m, k)[i] == s[i]
    {
      assert MirrorPath(m, k)[i] == MirrorPoint(m[|s| - 1 - i], k);
      assert m[|s| - 1 - i] == MirrorPoint(s[i], k);
    }
  }

  /** The reflection of a rectangle path is the path of the reflected rectangle. */
  lemma MirrorCorners(r: Rect, k: real)
    ensures MirrorPath(Corners(r), k) == Corners(MirrorRect(r, k))
  {
    var s, c := Corners(r), Corners(MirrorRect(r, k));
    var m := MirrorPath(s, k);
    assert m[0] == MirrorPoint(s[3], k) && m[1] == MirrorPoint(s[2], k);
    assert m[2] == MirrorPoint(s[1], k) && m[3] == MirrorPoint(s[0], k);
    assert m[0] == c[0] && m[1] == c[1] && m[2] == c[2] && m[3] == c[3];
  }

  /** The reflection of a tab on an edge of `r` is the tab on the matching
      edge of the reflected rectangle. */
  lemma MirrorEdgeTab(r: Rect, side: Side, reach: real, k: real)
    ensures MirrorPath(EdgeTab(r, side, reach), k) == EdgeTab(MirrorRect(r, k), MirrorSide(side), reach)
  {
    var s, e := EdgeTab(r, side, reach), EdgeTab(MirrorRect(r, k), MirrorSide(side), reach);
    var m := MirrorPath(s, k);
    assert m[0] == MirrorPoint(s[3], k) && m[1] == MirrorPoint(s[2], k);
    assert m[2] == MirrorPoint(s[1], k) && m[3] == MirrorPoint(s[0], k);
    assert m[0] == e[0] && m[1] == e[1] && m[2] == e[2] && m[3] == e[3];
  }

  /** Under x -> 2h + w - x the left and right panels trade places and each
      spine panel maps onto itself. */
  lemma PanelMirror(f: Face, dims: Dims)
    ensures MirrorPath(PanelShape(f, dims).segments, 2.0 * dims.height + dims.width)
         == PanelShape(MirrorFace(f), dims).segments
  {
    MirrorCorners(PanelRect(f, dims), 2.0 * dims.height + dims.width);
  }

  /** Under the same reflection each left tab maps onto the matching right
      tab and the top tab onto itself. */
  lemma TabMirror(f: Flap, dims: Dims, tabWidth: real)
    ensures MirrorPath(PlacedTab(f, dims, tabWidth), 2.0 * dims.height + dims.width)
         == PlacedTab(MirrorFlap(f), dims, tabWidth)
  {
    MirrorEdgeTab(PanelRect(Host(f), dims), HostSide(f), tabWidth, 2.0 * dims.height + dims.width);
    MirrorHost(f, dims);
  }

  /** The reflection takes each tab's host edge to the host edge of the
      mirrored tab. */
  lemma MirrorHost(f: Flap, dims: Dims)
    ensures MirrorRect(PanelRect(Host(f), dims), 2.0 * dims.height + dims.width) == PanelRect(Host(MirrorFlap(f)), dims)
    ensures MirrorSide(HostSide(f)) == HostSide(MirrorFlap(f))
  {
  }

  // ---------------------------------------------------------------------
  // The group's children and their names.

  /** Where each panel sits among the panels, and each tab among the tabs. */
  function FaceIndex(f: Face): int {
    match f
    case Front => 0
    case Bottom => 1
    case Back => 2
    case Top => 3
    case Left => 4
    case Right => 5
  }

  function FlapIndex(f: Flap): int {
    match f
    case TopTab1 => 0
    case LeftTab1 => 1
    case LeftTab2 => 2
    case LeftTab3 => 3
    case RightTab1 => 4
    case RightTab2 => 5
    case RightTab3 => 6
  }

  /** The panel order lists every face exactly once, and the tab order every
      tab exactly once. */
  lemma OrdersAreComplete()
    ensures |FaceOrder| == 6 && |FlapOrder| == 7
    ensures forall f :: 0 <= FaceIndex(f) < 6 && FaceOrder[FaceIndex(f)] == f
    ensures forall f :: 0 <= FlapIndex(f) < 7 && FlapOrder[FlapIndex(f)] == f
    ensures forall i :: 0 <= i < 6 ==> FaceIndex(FaceOrder[i]) == i
    ensures forall i :: 0 <= i < 7 ==> FlapIndex(FlapOrder[i]) == i
  {
  }

  lemma FaceNameInjective(f: Face, g: Face)
    ensures FaceName(f) == FaceName(g) <==> f == g
  {
    if f != g {
      assert FaceName(f)[0] != FaceName(g)[0] || FaceName(f)[1] != FaceName(g)[1];
    }
  }

  lemma FlapNameInjective(f: Flap, g: Flap)
    ensures FlapName(f) == FlapName(g) <==> f == g
  {
    if f != g {
      assert |FlapName(f)| != |FlapName(g)| || FlapName(f)[0] != FlapName(g)[0]
          || FlapName(f)[|FlapName(f)| - 1] != FlapName(g)[|FlapName(g)| - 1];
    }
  }

  /** Panel names are short words, tab names longer: none is shared. */
  lemma FaceAndFlapNamesDiffer(f: Face, g: Flap)
    ensures FaceName(f) != FlapName(g)
  {
    assert |FaceName(f)| <= 6 < 9 <= |FlapName(g)|;
  }

  /** The group holds the thirteen shapes: the six panels in the order
      front, bottom, back, top, left, right, then the seven tabs in the
      order top_tab_1, left_tab_1..3, right_tab_1..3; each shape once. */
  lemma PatternRoster(dims: Dims, tabWidth: real)
    ensures |Pattern(dims, tabWidth)| == 13
    ensures forall f :: Pattern(dims, tabWidth)[FaceIndex(f)] == PanelShape(f, dims)
    ensures forall f :: Pattern(dims, tabWidth)[6 + FlapIndex(f)] == TabShapeNamed(f, dims, tabWidth)
  {
    OrdersAreComplete();
  }

  /** No two children of the group share a name. */
  lemma PatternNamesDistinct(dims: Dims, tabWidth: real)
    ensures forall i, j :: 0 <= i < j < |Pattern(dims, tabWidth)| ==>
      Pattern(dims, tabWidth)[i].name != Pattern(dims, tabWidth)[j].name
  {
    var p := Pattern(dims, tabWidth);
    OrdersAreComplete();
    forall i, j | 0 <= i < j < 13 ensures p[i].name != p[j].name {
      if j < 6 {
        FaceNameInjective(FaceOrder[i], FaceOrder[j]);
      } else if i < 6 {
        FaceAndFlapNamesDiffer(FaceOrder[i], FlapOrder[j - 6]);
      } else {
        FlapNameInjective(FlapOrder[i - 6], FlapOrder[j - 6]);
      }
    }
  }

  /** In a list of distinctly named shapes, looking up a child's name finds
      that child. */
  lemma {:induction false} IndexOfDistinct(shapes: seq<Shape>, i: int)
    requires forall j, k :: 0 <= j < k < |shapes| ==> shapes[j].name != shapes[k].name
    requires 0 <= i < |shapes|
    ensures IndexOf(shapes, shapes[i].name) == Some(i)
  {
    if i > 0 {
      assert shapes[0].name != shapes[i].name;
      IndexOfDistinct(shapes[1..], i - 1);
    }
  }

  /** Looking a panel or a tab up by its name in the group finds it. */
  lemma LookupByName(dims: Dims, tabWidth: real)
    ensures forall f :: IndexOf(Pattern(dims, tabWidth), FaceName(f)) == Some(FaceIndex(f))
    ensures forall f :: IndexOf(Pattern(dims, tabWidth), FlapName(f)) == Some(6 + FlapIndex(f))
  {
    PatternRoster(dims, tabWidth);
    PatternNamesDistinct(dims, tabWidth);
    forall f: Face ensures IndexOf(Pattern(dims, tabWidth), FaceName(f)) == Some(FaceIndex(f)) {
      IndexOfDistinct(Pattern(dims, tabWidth), FaceIndex(f));
    }
    forall f: Flap ensures IndexOf(Pattern(dims, tabWidth), FlapName(f)) == Some(6 + FlapIndex(f)) {
      IndexOfDistinct(Pattern(dims, tabWidth), 6 + FlapIndex(f));
    }
  }
}
