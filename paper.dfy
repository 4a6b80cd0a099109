/** The drawing-library objects makeBoxPattern works with, and the two
    functions themselves. A path is created from a rectangle and then
    changed in place: a segment point nudged, a rotation assigned, a
    position assigned, a name given. A group holds paths in order. */
module PaperItems {
  import opened Geometry
  import opened BoxLayout
  import opened TabProofs

  /** A path: its segment points, in order, and its name. */
  class Path {
    var segments: seq<Point>
    var name: string

    /** A rectangle path: the four corners, bottom-left first, unnamed. */
    constructor Rectangle(r: Rect)
      ensures segments == Corners(r) && name == ""
    {
      segments := Corners(r);
      name := "";
    }

    /** Adds `dx` to the x-coordinate of segment point `i`. */
    method ShiftX(i: int, dx: real)
      requires 0 <= i < |segments|
      modifies this
      ensures segments == old(segments)[i := Point(old(segments)[i].x + dx, old(segments)[i].y)]
      ensures name == old(name)
    {
      segments := segments[i := Point(segments[i].x + dx, segments[i].y)];
    }

    /** Assigning a rotation to a path that has not been rotated before turns
        it about the centre of its bounds. */
    method SetRotation(t: Turn)
      requires |segments| > 0
      modifies this
      ensures segments == Rotated(old(segments), t)
      ensures Bounds(segments).Centre() == Bounds(old(segments)).Centre()
      ensures name == old(name)
    {
      RotatedBounds(segments, t);
      segments := Rotated(segments, t);
    }

    /** Assigning a position moves the path so that the centre of its bounds
        is `p`, keeping its size. */
    method SetPosition(p: Point)
      requires |segments| > 0
      modifies this
      ensures segments == MovedTo(old(segments), p)
      ensures Bounds(segments).Centre() == p
      ensures Bounds(segments).width == Bounds(old(segments)).width
      ensures Bounds(segments).height == Bounds(old(segments)).height
      ensures name == old(name)
    {
      MovedToBounds(segments, p);
      segments := MovedTo(segments, p);
    }

    method SetName(n: string)
      modifies this
      ensures name == n && segments == old(segments)
    {
      name := n;
    }
  }

  /** A group: its name and its children, in order. */
  class Group {
    var name: string
    var children: seq<Path>

    constructor (name: string, children: seq<Path>)
      ensures this.name == name && this.children == children
    {
      this.name := name;
      this.children := children;
    }

    /** What the group draws: each child's name and segment points. */
    function Shapes(): (s: seq<Shape>)
      reads this, children
      ensures |s| == |children|
    {
      seq(|children|, i reads this, children requires 0 <= i < |children| =>
        Shape(children[i].name, children[i].segments))
    }
  }

  /** makeTab: an up-pointing tab in `bounds`, made from the rectangle path
      of `bounds` by moving its top-left corner right and its top-right
      corner left by the height of `bounds`. */
  method MakeTab(bounds: Rect) returns (tab: Path)
    ensures fresh(tab) && tab.name == ""
    ensures tab.segments == Taper(bounds)
    ensures tab.segments == Trapezoid(Point(bounds.x, bounds.Bottom()), North, bounds.width, bounds.height)
  {
    tab := new Path.Rectangle(bounds);
    tab.ShiftX(1, bounds.height);
    tab.ShiftX(2, -bounds.height);
  }

  /** One panel of the net, as makeBoxPattern builds and names it. */
  method MakePanel(f: Face, dims: Dims) returns (panel: Path)
    ensures fresh(panel)
    ensures panel.name == FaceName(f) && panel.segments == Corners(PanelRect(f, dims))
  {
    panel := new Path.Rectangle(PanelRect(f, dims));
    panel.SetName(FaceName(f));
  }

  /** A tab made on the top edge of `r` and left as it is: it stands on
      that edge. */
  method MakeUpTab(base: Rect, r: Rect) returns (tab: Path)
    requires base.x == r.x && base.Bottom() == r.y && base.width == r.width
    ensures fresh(tab) && tab.name == ""
    ensures tab.segments == EdgeTab(r, North, base.height)
  {
    tab := MakeTab(base);
    TaperOnNorthEdge(base, r);
  }

  /** A tab made along the bottom edge of `r` and given a rotation of 180
      degrees: it hangs from that edge. */
  method MakeHalfTurnedTab(base: Rect, r: Rect) returns (tab: Path)
    requires base.x == r.x && base.y == r.Bottom() && base.width == r.width
    ensures fresh(tab) && tab.name == ""
    ensures tab.segments == EdgeTab(r, South, base.height)
  {
    tab := MakeTab(base);
    tab.SetRotation(Deg180);
    HalfTurnOnSouthEdge(base, r);
  }

  /** A tab as long as the left edge of `r`, given a rotation of -90 degrees
      and the position `p`: it juts out to the left of that edge. */
  method MakeLeftTurnedTab(base: Rect, r: Rect, p: Point) returns (tab: Path)
    requires base.width == r.height
    requires p.x + base.height / 2.0 == r.x && p.y + base.width / 2.0 == r.Bottom()
    ensures fresh(tab) && tab.name == ""
    ensures tab.segments == EdgeTab(r, West, base.height)
  {
    tab := MakeTab(base);
    tab.SetRotation(DegMinus90);
    tab.SetPosition(p);
    LeftTurnOnWestEdge(base, r, p);
  }

  /** A tab as long as the right edge of `r`, given a rotation of 90 degrees
      and the position `p`: it juts out to the right of that edge. */
  method MakeRightTurnedTab(base: Rect, r: Rect, p: Point) returns (tab: Path)
    requires base.width == r.height
    requires p.x - base.height / 2.0 == r.Right() && p.y - base.width / 2.0 == r.y
    ensures fresh(tab) && tab.name == ""
    ensures tab.segments == EdgeTab(r, East, base.height)
  {
    tab := MakeTab(base);
    tab.SetRotation(Deg90);
    tab.SetPosition(p);
    RightTurnOnEastEdge(base, r, p);
  }

  /** One tab of the net, as makeBoxPattern builds, turns, places and
      names it: it ends up as the glue tab on its host panel's edge. */
  method MakePlacedTab(f: Flap, dims: Dims, tabWidth: real) returns (tab: Path)
    ensures fresh(tab)
    ensures tab.name == FlapName(f) && tab.segments == PlacedTab(f, dims, tabWidth)
  {
    var base, r := TabBase(f, dims, tabWidth), PanelRect(Host(f), dims);
    match f {
      case TopTab1 =>
        tab := MakeHalfTurnedTab(base, r);
      case LeftTab1 =>
        tab := MakeUpTab(base, r);
      case LeftTab2 =>
        tab := MakeHalfTurnedTab(base, r);
      case LeftTab3 =>
        tab := MakeLeftTurnedTab(base, r, LeftTab3Centre(dims, tabWidth));
      case RightTab1 =>
        tab := MakeUpTab(base, r);
      case RightTab2 =>
        tab := MakeHalfTurnedTab(base, r);
      case RightTab3 =>
        tab := MakeRightTurnedTab(base, r, RightTab3Centre(dims, tabWidth));
    }
    tab.SetName(FlapName(f));
  }

  /** The six panels, made and named in the order makeBoxPattern makes
      them: front, bottom, back, top, left, right. */
  method MakePanels(dims: Dims) returns (panels: seq<Path>)
    ensures |panels| == 6
    ensures forall i :: 0 <= i < 6 ==> fresh(panels[i])
    ensures forall i, j :: 0 <= i < j < 6 ==> panels[i] != panels[j]
    ensures forall i :: 0 <= i < 6 ==> Shape(panels[i].name, panels[i].segments) == PanelShape(FaceOrder[i], dims)
  {
    var front := MakePanel(Front, dims);
    var bottom := MakePanel(Bottom, dims);
    var back := MakePanel(Back, dims);
    var top := MakePanel(Top, dims);
    var left := MakePanel(Left, dims);
    var right := MakePanel(Right, dims);
    panels := [front, bottom, back, top, left, right];
  }

  /** The seven tabs, made, turned, placed and named in the order
      makeBoxPattern makes them. */
  method MakePlacedTabs(dims: Dims, tabWidth: real) returns (tabs: seq<Path>)
    ensures |tabs| == 7
    ensures forall i :: 0 <= i < 7 ==> fresh(tabs[i])
    ensures forall i, j :: 0 <= i < j < 7 ==> tabs[i] != tabs[j]
    ensures forall i :: 0 <= i < 7 ==> Shape(tabs[i].name, tabs[i].segments) == TabShapeNamed(FlapOrder[i], dims, tabWidth)
  {
    var topTab1 := MakePlacedTab(TopTab1, dims, tabWidth);
    var leftTab1 := MakePlacedTab(LeftTab1, dims, tabWidth);
    var leftTab2 := MakePlacedTab(LeftTab2, dims, tabWidth);
    var leftTab3 := MakePlacedTab(LeftTab3, dims, tabWidth);
    var rightTab1 := MakePlacedTab(RightTab1, dims, tabWidth);
    var rightTab2 := MakePlacedTab(RightTab2, dims, tabWidth);
    var rightTab3 := MakePlacedTab(RightTab3, dims, tabWidth);
    tabs := [topTab1, leftTab1, leftTab2, leftTab3, rightTab1, rightTab2, rightTab3];
  }

  /** makeBoxPattern: the six panels and the seven tabs, in one group named
      "box", each child a new path of its own. No input is checked. */
  method MakeBoxPattern(width: real, height: real, depth: real, tabWidth: real) returns (box: Group)
    ensures fresh(box) && box.name == "box" && |box.children| == 13
    ensures forall i :: 0 <= i < 13 ==> fresh(box.children[i])
    ensures forall i, j :: 0 <= i < j < 13 ==> box.children[i] != box.children[j]
    ensures box.Shapes() == Pattern(Dims(width, height, depth), tabWidth)
  {
    var dims := Dims(width, height, depth);
    var panels := MakePanels(dims);
    var tabs := MakePlacedTabs(dims, tabWidth);
    box := new Group("box", panels + tabs);
    assert forall i :: 0 <= i < 13 ==> box.Shapes()[i] == Pattern(dims, tabWidth)[i];
  }
}
