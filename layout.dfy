/** The box net as values: the six panel rectangles, the seven glue tabs and
    the ordered group that collects them, for box dimensions `width`,
    `height` and `depth` and a tab reach `tabWidth`, all in points (72 to
    the inch). Every coordinate is exact real arithmetic. */
module BoxLayout {
  import opened Geometry

  const INCH: real := 72.0

  datatype Dims = Dims(width: real, height: real, depth: real) {
    predicate Positive() { width > 0.0 && height > 0.0 && depth > 0.0 }
  }

  /** The panels, one per face of the box, in the order the group holds them. */
  datatype Face = Front | Bottom | Back | Top | Left | Right

  /** The glue tabs, in the order the group holds them. */
  datatype Flap = TopTab1 | LeftTab1 | LeftTab2 | LeftTab3 | RightTab1 | RightTab2 | RightTab3

  function FaceName(f: Face): string {
    match f
    case Front => "front"
    case Bottom => "bottom"
    case Back => "back"
    case Top => "top"
    case Left => "left"
    case Right => "right"
  }

  function FlapName(f: Flap): string {
    match f
    case TopTab1 => "top_tab_1"
    case LeftTab1 => "left_tab_1"
    case LeftTab2 => "left_tab_2"
    case LeftTab3 => "left_tab_3"
    case RightTab1 => "right_tab_1"
    case RightTab2 => "right_tab_2"
    case RightTab3 => "right_tab_3"
  }

  /** The panel rectangles: a spine of front, bottom, back and top at
      x = height, with left and right beside the bottom panel. */
  function PanelRect(f: Face, dims: Dims): Rect {
    var w, h, d := dims.width, dims.height, dims.depth;
    match f
    case Front => Rect(h, 0.0, w, h)
    case Bottom => Rect(h, h, w, d)
    case Back => Rect(h, h + d, w, h)
    case Top => Rect(h, h + d + h, w, d)
    case Left => Rect(0.0, h, h, d)
    case Right => Rect(h + w, h, h, d)
  }

  /** makeTab: the rectangle path of `bounds` with its second and third
      segment points (the top corners) pulled inward by the height of
      `bounds`; nothing is clamped. */
  function Taper(bounds: Rect): seq<Point> {
    var c := Corners(bounds);
    c[1 := Point(c[1].x + bounds.height, c[1].y)][2 := Point(c[2].x - bounds.height, c[2].y)]
  }

  /** The rectangle each tab is cut from before it is tapered. */
  function TabBase(f: Flap, dims: Dims, tabWidth: real): Rect {
    var w, h, d, t := dims.width, dims.height, dims.depth, tabWidth;
    match f
    case TopTab1 => Rect(h, h + d + h + d, w, t)
    case LeftTab1 => Rect(0.0, h - t, h, t)
    case LeftTab2 => Rect(0.0, h + d, h, t)
    case LeftTab3 => Rect(0.0, 0.0, d, t)
    case RightTab1 => Rect(h + w, h - t, h, t)
    case RightTab2 => Rect(h + w, h + d, h, t)
    case RightTab3 => Rect(0.0, 0.0, d, t)
  }

  /** Where makeBoxPattern centres the two tabs it turns by a quarter turn. */
  function LeftTab3Centre(dims: Dims, tabWidth: real): Point {
    Point(-tabWidth * 0.5, dims.height + dims.depth * 0.5)
  }

  function RightTab3Centre(dims: Dims, tabWidth: real): Point {
    Point(dims.height + dims.width + dims.height + tabWidth * 0.5, dims.height + dims.depth * 0.5)
  }

  /** A named path of the group. */
  datatype Shape = Shape(name: string, segments: seq<Point>)

  function PanelShape(f: Face, dims: Dims): Shape {
    Shape(FaceName(f), Corners(PanelRect(f, dims)))
  }

  function TabShapeNamed(f: Flap, dims: Dims, tabWidth: real): Shape {
    Shape(FlapName(f), PlacedTab(f, dims, tabWidth))
  }

  /** The order in which the group holds the panels, and then the tabs. */
  const FaceOrder: seq<Face> := [Front, Bottom, Back, Top, Left, Right]
  const FlapOrder: seq<Flap> := [TopTab1, LeftTab1, LeftTab2, LeftTab3, RightTab1, RightTab2, RightTab3]

  /** The `i`-th child of the group. */
  function Child(i: int, dims: Dims, tabWidth: real): Shape
    requires 0 <= i < 13
  {
    if i < 6 then PanelShape(FaceOrder[i], dims) else TabShapeNamed(FlapOrder[i - 6], dims, tabWidth)
  }

  /** The group makeBoxPattern returns: the six panels, then the seven tabs. */
  function Pattern(dims: Dims, tabWidth: real): (s: seq<Shape>)
    ensures |s| == 13
  {
    seq(13, i requires 0 <= i < 13 => Child(i, dims, tabWidth))
  }

  // ---------------------------------------------------------------------
  // Reference definitions the layout is proved against.

  /** The four sides of a rectangle; North is the top edge, since y grows downward. */
  datatype Side = North | East | South | West

  /** Each side is walked clockwise on screen, from its start to its end. */
  function EdgeStart(r: Rect, side: Side): Point {
    match side
    case North => Point(r.x, r.y)
    case East => Point(r.Right(), r.y)
    case South => Point(r.Right(), r.Bottom())
    case West => Point(r.x, r.Bottom())
  }

  function EdgeEnd(r: Rect, side: Side): Point {
    match side
    case North => Point(r.Right(), r.y)
    case East => Point(r.Right(), r.Bottom())
    case South => Point(r.x, r.Bottom())
    case West => Point(r.x, r.y)
  }

  function EdgeLength(r: Rect, side: Side): real {
    match side
    case North => r.width
    case South => r.width
    case East => r.height
    case West => r.height
  }

  /** How far `q` lies beyond `p` in the walking direction of `side`. */
  function Run(side: Side, p: Point, q: Point): real {
    match side
    case North => q.x - p.x
    case East => q.y - p.y
    case South => p.x - q.x
    case West => p.y - q.y
  }

  /** How far `p` lies outside the line of the edge of `r` on `side`:
      positive away from the rectangle, negative towards its inside. */
  function Offset(p: Point, r: Rect, side: Side): real {
    match side
    case North => r.y - p.y
    case East => p.x - r.Right()
    case South => p.y - r.Bottom()
    case West => r.x - p.x
  }

  /** An isosceles glue tab of reach `reach` whose base is the segment of
      length `len` walked from `p` in the direction of `side`, and whose tip
      lies `reach` beyond it on the outward side, pulled in by `reach` at
      both ends. */
  function Trapezoid(p: Point, side: Side, len: real, reach: real): seq<Point> {
    match side
    case North => [p, Point(p.x + reach, p.y - reach), Point(p.x + len - reach, p.y - reach), Point(p.x + len, p.y)]
    case East => [p, Point(p.x + reach, p.y + reach), Point(p.x + reach, p.y + len - reach), Point(p.x, p.y + len)]
    case South => [p, Point(p.x - reach, p.y + reach), Point(p.x - len + reach, p.y + reach), Point(p.x - len, p.y)]
    case West => [p, Point(p.x - reach, p.y - reach), Point(p.x - reach, p.y - len + reach), Point(p.x, p.y - len)]
  }

  /** The glue tab of reach `reach` standing on the `side` edge of `r`. */
  function EdgeTab(r: Rect, side: Side, reach: real): seq<Point> {
    Trapezoid(EdgeStart(r, side), side, EdgeLength(r, side), reach)
  }

  /** The panel each tab is glued to, and the edge of that panel it stands on. */
  function Host(f: Flap): Face {
    match f
    case TopTab1 => Top
    case LeftTab1 => Left
    case LeftTab2 => Left
    case LeftTab3 => Left
    case RightTab1 => Right
    case RightTab2 => Right
    case RightTab3 => Right
  }

  /** Where each tab of the net lies: the glue tab of reach `tabWidth` on
      its host panel's edge. */
  function PlacedTab(f: Flap, dims: Dims, tabWidth: real): seq<Point> {
    EdgeTab(PanelRect(Host(f), dims), HostSide(f), tabWidth)
  }

  function HostSide(f: Flap): Side {
    match f
    case TopTab1 => South
    case LeftTab1 => North
    case LeftTab2 => South
    case LeftTab3 => West
    case RightTab1 => North
    case RightTab2 => South
    case RightTab3 => East
  }

  /** The band of thickness `reach` just outside the `side` edge of `r`. */
  function Strip(r: Rect, side: Side, reach: real): Rect {
    match side
    case North => Rect(r.x, r.y - reach, r.width, reach)
    case East => Rect(r.Right(), r.y, reach, r.height)
    case South => Rect(r.x, r.Bottom(), r.width, reach)
    case West => Rect(r.x - reach, r.y, reach, r.height)
  }

  /** Two rectangles' interiors meet. */
  predicate InteriorsMeet(a: Rect, b: Rect) {
    a.x < b.Right() && b.x < a.Right() && a.y < b.Bottom() && b.y < a.Bottom()
  }

  /** The smallest rectangle holding both. */
  function Join(a: Rect, b: Rect): Rect {
    var x0 := if a.x <= b.x then a.x else b.x;
    var y0 := if a.y <= b.y then a.y else b.y;
    var x1 := if a.Right() >= b.Right() then a.Right() else b.Right();
    var y1 := if a.Bottom() >= b.Bottom() then a.Bottom() else b.Bottom();
    Rect(x0, y0, x1 - x0, y1 - y0)
  }

  /** The smallest rectangle holding every rectangle of `rs`. */
  function Hull(rs: seq<Rect>): Rect
    requires |rs| > 0
  {
    if |rs| == 1 then rs[0] else Join(rs[0], Hull(rs[1..]))
  }

  /** The bounds of a group: the join of its children's bounds. */
  function GroupBounds(shapes: seq<Shape>): Rect
    requires |shapes| > 0
    requires forall i :: 0 <= i < |shapes| ==> |shapes[i].segments| > 0
  {
    if |shapes| == 1 then Bounds(shapes[0].segments)
    else Join(Bounds(shapes[0].segments), GroupBounds(shapes[1..]))
  }

  /** Given the bounds of each child, the bounds of the group are their hull. */
  lemma {:induction false} GroupBoundsIsHull(shapes: seq<Shape>, rs: seq<Rect>)
    requires |shapes| == |rs| > 0
    requires forall i :: 0 <= i < |shapes| ==> |shapes[i].segments| > 0 && Bounds(shapes[i].segments) == rs[i]
    ensures GroupBounds(shapes) == Hull(rs)
    decreases |shapes|
  {
    if |shapes| > 1 {
      GroupBoundsIsHull(shapes[1..], rs[1..]);
    }
  }

  /** The position of the first child called `name`, as a lookup by name finds it. */
  function IndexOf(shapes: seq<Shape>, name: string): (r: Option<nat>)
    ensures r.Some? ==> r.value < |shapes| && shapes[r.value].name == name
    ensures r.Some? ==> forall j :: 0 <= j < r.value ==> shapes[j].name != name
    ensures r.None? ==> forall i :: 0 <= i < |shapes| ==> shapes[i].name != name
  {
    if |shapes| == 0 then None
    else if shapes[0].name == name then Some(0)
    else match IndexOf(shapes[1..], name)
      case None => None
      case Some(k) => Some(k + 1)
  }

  datatype Option<T> = None | Some(value: T)
}
