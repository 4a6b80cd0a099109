/** box_gen/basil.js: two-inch tabs; its regenerate step looks the panels
    up by name and reads their bounds. */
module BasilJs {
  import opened Geometry
  import opened BoxLayout
  import opened PaperItems
  import opened PanelProofs
  import opened PatternProofs

  const TAB_WIDTH: real := 2.0 * INCH

  /** makeBoxPattern with this file's tab width. */
  method MakeBoxPattern(width: real, height: real, depth: real) returns (box: Group)
    ensures fresh(box) && box.name == "box" && |box.children| == 13
    ensures forall i :: 0 <= i < 13 ==> fresh(box.children[i])
    ensures forall i, j :: 0 <= i < j < 13 ==> box.children[i] != box.children[j]
    ensures box.Shapes() == Pattern(Dims(width, height, depth), 144.0)
  {
    box := PaperItems.MakeBoxPattern(width, height, depth, TAB_WIDTH);
  }

  /** Looking a panel up by its name in the pattern finds that panel, and
      its bounds are the panel's rectangle: the size and corner the artwork
      for that face is fitted to. */
  lemma NamedPanelBounds(dims: Dims, f: Face)
    requires dims.width >= 0.0 && dims.height >= 0.0 && dims.depth >= 0.0
    ensures IndexOf(Pattern(dims, TAB_WIDTH), FaceName(f)) == Some(FaceIndex(f))
    ensures Bounds(Pattern(dims, TAB_WIDTH)[FaceIndex(f)].segments) == PanelRect(f, dims)
  {
    LookupByName(dims, TAB_WIDTH);
    PatternRoster(dims, TAB_WIDTH);
    PanelBounds(f, dims);
  }
}

/** box_gen/box_gen_02.js: the same two-inch tabs. */
module BoxGen02 {
  import opened BoxLayout
  import opened PaperItems
  import opened PatternProofs

  const TAB_WIDTH: real := 2.0 * INCH

  /** makeBoxPattern with this file's tab width. */
  method MakeBoxPattern(width: real, height: real, depth: real) returns (box: Group)
    ensures fresh(box) && box.name == "box" && |box.children| == 13
    ensures forall i :: 0 <= i < 13 ==> fresh(box.children[i])
    ensures forall i, j :: 0 <= i < j < 13 ==> box.children[i] != box.children[j]
    ensures box.Shapes() == Pattern(Dims(width, height, depth), 144.0)
  {
    box := PaperItems.MakeBoxPattern(width, height, depth, TAB_WIDTH);
  }

  /** Every tab rectangle is at least twice as wide as it is tall exactly
      when the box is at least four inches (288 units) in every dimension. */
  lemma TwoInchTabsFit(dims: Dims)
    ensures (forall f :: TabBase(f, dims, TAB_WIDTH).width >= 2.0 * TabBase(f, dims, TAB_WIDTH).height)
        <==> dims.width >= 288.0 && dims.height >= 288.0 && dims.depth >= 288.0
  {
    TabsFit(dims, TAB_WIDTH);
  }
}

/** box_gen/box_gen_01.js: half-inch tabs, and a main step that builds the
    net of a box 6 inches wide, 4 high and 3 deep. */
module BoxGen01 {
  import opened Geometry
  import opened BoxLayout
  import opened PaperItems
  import opened PatternProofs

  const TAB_WIDTH: real := 0.5 * INCH

  /** makeBoxPattern with this file's tab width. */
  method MakeBoxPattern(width: real, height: real, depth: real) returns (box: Group)
    ensures fresh(box) && box.name == "box" && |box.children| == 13
    ensures forall i :: 0 <= i < 13 ==> fresh(box.children[i])
    ensures forall i, j :: 0 <= i < j < 13 ==> box.children[i] != box.children[j]
    ensures box.Shapes() == Pattern(Dims(width, height, depth), 36.0)
  {
    box := PaperItems.MakeBoxPattern(width, height, depth, TAB_WIDTH);
  }

  /** The dimensions main passes: 6, 4 and 3 inches. */
  function MainDims(): Dims {
    Dims(6.0 * INCH, 4.0 * INCH, 3.0 * INCH)
  }

  /** The box main builds: its panels, in the group's order. */
  method MainPattern() returns (box: Group)
    ensures fresh(box) && box.Shapes() == Pattern(Dims(432.0, 288.0, 216.0), 36.0)
  {
    box := MakeBoxPattern(6.0 * INCH, 4.0 * INCH, 3.0 * INCH);
  }

  /** The six panels of main's box. */
  lemma MainPanels()
    ensures PanelRect(Front, MainDims()) == Rect(288.0, 0.0, 432.0, 288.0)
    ensures PanelRect(Bottom, MainDims()) == Rect(288.0, 288.0, 432.0, 216.0)
    ensures PanelRect(Back, MainDims()) == Rect(288.0, 504.0, 432.0, 288.0)
    ensures PanelRect(Top, MainDims()) == Rect(288.0, 792.0, 432.0, 216.0)
    ensures PanelRect(Left, MainDims()) == Rect(0.0, 288.0, 288.0, 216.0)
    ensures PanelRect(Right, MainDims()) == Rect(720.0, 288.0, 288.0, 216.0)
  {
  }

  /** The tip edge each half-inch tab of main's box keeps: 360 for the top
      tab, 216 for the tabs on the side panels' short edges, 144 for the
      two on their long edges. */
  function MainTip(f: Flap): real {
    match f
    case TopTab1 => 360.0
    case LeftTab3 => 144.0
    case RightTab3 => 144.0
    case _ => 216.0
  }

  /** In main's box every tab rectangle is at least twice as wide as it is
      tall, and each tab's tip edge has the length above. */
  lemma MainTabs(f: Flap)
    ensures TabBase(f, MainDims(), TAB_WIDTH).width >= 2.0 * TabBase(f, MainDims(), TAB_WIDTH).height
    ensures Run(HostSide(f), PlacedTab(f, MainDims(), TAB_WIDTH)[1], PlacedTab(f, MainDims(), TAB_WIDTH)[2])
         == MainTip(f)
  {
    TabOnPanelEdge(f, MainDims(), TAB_WIDTH);
  }
}
