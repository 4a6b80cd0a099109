# Box net generator: makeBoxPattern and makeTab

The three scripts in `box_gen/` draw the flat net of a cardboard box with
paper.js. Given a box `width`, `height` and `depth`, `makeBoxPattern`
builds:

- six rectangle paths for the panels: a spine of front, bottom, back and
  top at `x = height`, with the left and right panels beside the bottom
  panel;
- seven glue tabs. `makeTab` cuts each one from a rectangle by pulling its
  two top corners inward by the rectangle's height. Five of the tabs are
  then turned: `top_tab_1`, `left_tab_2` and `right_tab_2` by 180 degrees,
  `left_tab_3` by -90 and `right_tab_3` by 90, and those last two are also
  given a position. `left_tab_1` and `right_tab_1` stay as `makeTab`
  leaves them;
- one group named `box` holding the thirteen paths in a fixed order.

Their `makeBoxPattern` geometry differs only in the tab reach
`TAB_WIDTH`: 2 inches (144 points) in `basil.js` and `box_gen_02.js`, half
an inch (36 points) in `box_gen_01.js`. The group's stroke and fill differ
too, and only `box_gen_01.js` has a `main` that builds a box of fixed
size.

This project models that core in Dafny and proves what it promises. It
has five layers.

- `Geometry` (geometry.dfy): points and rectangles; the bounds of a path
  as the least and greatest coordinates of its points. It also gives the
  drawing library's three facts as exact maps over `real`:
  - a rectangle path lists its corners bottom-left, top-left, top-right,
    bottom-right, with y growing downward;
  - assigning a rotation turns the path about the centre of its bounds;
  - assigning a position moves that centre.
- `BoxLayout` (layout.dfy): the net as values, meaning the panel
  rectangles, the tab rectangles and `Taper`, the group's `Pattern` of
  thirteen named shapes, and lookup by name. It also holds the reference
  definitions the layout is proved against. `EdgeTab(r, side, reach)` is
  the isosceles glue tab standing on one edge of a rectangle.
  `PlacedTab(f)` is the edge tab on the panel edge tab `f` is glued to.
- `PaperItems` (paper.dfy): the imperative part.
  - `Path` and `Group` are classes whose fields the methods change in
    place: a segment point nudged, a rotation or position assigned, a name
    set.
  - `MakeTab` and `MakeBoxPattern` follow the scripts step by step.
  - They are proved against the values above. Every path the method makes
    is new and distinct, and the group's shapes are exactly `Pattern`.
  - Every tab, once tapered, turned and placed, is exactly `PlacedTab`.
    That is, its base is the full panel edge it is glued to, for all real
    inputs.
- `TabProofs`, `PanelProofs`, `PatternProofs` (tabs.dfy, panels.dfy,
  pattern.dfy): the properties of the net.
  - Panels do not overlap, and folds are full shared edges.
  - Opposite faces match, and the areas add up to the surface of the box.
  - The panel hull is fixed.
  - Each tab stands on an edge of its own length, with its tip shorter by
    twice the reach.
  - Tabs clear the panels and each other.
  - The net is mirror symmetric.
  - The thirteen children have distinct names, so lookup by name finds
    each one.
- `BasilJs`, `BoxGen02`, `BoxGen01` (variants.dfy): one module per script,
  with its `TAB_WIDTH`, its `makeBoxPattern` and facts that are specific
  to that script. For `box_gen_01.js` these are about the call in `main`
  (6 × 4 × 3 inches).

Lengths are in points (`INCH = 72`) and are modelled as exact reals.

## Model

| member | source | states |
|---|---|---|
| Geometry.CornersBounds | box_gen/basil.js:77-78 | a rectangle path of non-negative size has the rectangle as its bounds |
| Geometry.TurnedIsRotation | box_gen/basil.js:126-163 | the three exact turn maps are the rotation matrix at 180, 90 and -90 degrees, the quarter turns undo each other, and two half turns give the point back |
| Geometry.RotatedBounds | box_gen/basil.js:126 | assigning a rotation keeps the bounds' centre; a half turn keeps the bounds, a quarter turn swaps width and height |
| Geometry.MovedToBounds | box_gen/basil.js:145 | assigning a position puts the bounds' centre on that point and keeps the bounds' size |
| Geometry.TurnedThenMoved | box_gen/basil.js:144-145 | a four-point path turned and then moved lands point by point where each corner's turn plus the shift of the centre puts it |
| BoxLayout.IndexOf | box_gen/basil.js:403-423 | looking a name up in the group yields the index of the first child with that name, or none when no child has it |
| BoxLayout.GroupBoundsIsHull | box_gen/box_gen_02.js:171-187 | a group's bounds are the hull of its children's bounds |
| TabProofs.TaperMovesOnlyTopCorners | box_gen/box_gen_01.js:190-193 | makeTab changes only the x of the two top corners, by plus and minus the height; bottom corners and all y stay |
| TabProofs.TaperIsUpTab | box_gen/basil.js:196-201 | makeTab yields the up-pointing isosceles tab of reach H on the bottom edge of its rectangle |
| TabProofs.TaperCentre | box_gen/basil.js:198-201 | the tapered path's bounds are centred on the rectangle's centre, for any size |
| TabProofs.TaperKeepsBounds | box_gen/basil.js:196-201 | the tapered path has its rectangle as bounds if and only if 0 <= H <= W |
| TabProofs.HalfTurnedTaper | box_gen/basil.js:126 | a tapered rectangle turned 180 degrees is the tab hanging down from the rectangle's top edge |
| TabProofs.QuarterTurnedLeftTaper | box_gen/basil.js:143-146 | a tapered rectangle turned -90 degrees and moved to `p` is the left-pointing tab based half the reach right of `p` |
| TabProofs.QuarterTurnedRightTaper | box_gen/basil.js:162-168 | a tapered rectangle turned 90 degrees and moved to `p` is the right-pointing tab based half the reach left of `p` |
| TabProofs.HalfTurnOnSouthEdge | box_gen/basil.js:118-127 | a tab rectangle spanning the bottom edge of a panel, tapered and turned 180 degrees, is the tab on that edge |
| TabProofs.TaperOnNorthEdge | box_gen/basil.js:130-133 | a tab rectangle on the top edge of a panel, tapered, is the tab on that edge |
| TabProofs.LeftTurnOnWestEdge | box_gen/basil.js:143-146 | a tab rectangle as long as a panel's left edge, turned -90 degrees and centred half the reach left of it, is the tab on that edge |
| TabProofs.RightTurnOnEastEdge | box_gen/basil.js:162-168 | the same for the right edge and a 90-degree turn |
| TabProofs.EdgeTabGeometry | box_gen/box_gen_02.js:118-167 | an edge tab's base is the whole edge, its tip lies `reach` outside the edge, is shorter by `reach` at each end (length L - 2·reach), and its legs are equal |
| TabProofs.TabFacesAwayFromPanel | box_gen/box_gen_01.js:110-160 | every tab corner lies between 0 and `reach` outside its edge, and every point of the panel lies on the inner side |
| TabProofs.StripBounds | box_gen/box_gen_01.js:110-160 | with 0 <= reach <= edge length a tab's bounds are the band of width `reach` outside its edge |
| TabProofs.EdgeTabBounds | box_gen/box_gen_01.js:110-160 | a tab's bounds are that band if and only if 0 <= reach <= edge length |
| PanelProofs.PanelsDisjoint | box_gen/basil.js:77-115 | for positive dimensions no two different panels have overlapping interiors |
| PanelProofs.SpineStacked | box_gen/basil.js:77-104 | front, bottom, back and top occupy consecutive bands from y = 0 to 2h + 2d, all over x in [h, h + w] |
| PanelProofs.PanelHinges | box_gen/basil.js:77-115 | two panels share a full edge if and only if they are one of the five folds; spine folds are w long, side folds d long |
| PanelProofs.OppositeFacesCongruent | box_gen/basil.js:77-115 | front and back are w × h, bottom and top w × d, left and right h × d |
| PanelProofs.PanelArea | box_gen/box_gen_01.js:69-107 | the six panel areas add up to 2(wh + wd + hd) |
| PanelProofs.PanelBounds | box_gen/basil.js:77-115 | each panel path's bounds are its panel rectangle |
| PanelProofs.PanelHull | box_gen/box_gen_02.js:77-112 | the group of the six panels spans [0, 2h + w] × [0, 2h + 2d] |
| PanelProofs.PanelsLeadPattern | box_gen/basil.js:173-187 | the six panel shapes the hull is stated over are exactly the group's first six children, for any tab reach |
| PatternProofs.TabOnPanelEdge | box_gen/box_gen_02.js:118-167 | each placed tab starts and ends at the ends of its host panel edge, which is w, h or d long; its tip lies `tabWidth` out and is 2·tabWidth shorter |
| PatternProofs.HostSpan | box_gen/box_gen_02.js:118-167 | the edge each tab stands on is w long for top_tab_1, h for the _1 and _2 tabs, d for the _3 tabs |
| PatternProofs.TabsFit | box_gen/basil.js:117-168 | every tab rectangle is at least twice as wide as tall if and only if w, h and d are each at least twice the tab width |
| PatternProofs.TabBaseSpan | box_gen/basil.js:117-168 | each tab rectangle is as wide as its edge and as tall as the tab width |
| PatternProofs.TabBounds | box_gen/box_gen_01.js:110-160 | with 0 <= tabWidth <= edge length a placed tab's bounds are the band outside its edge |
| PatternProofs.StripClearOfPanels | box_gen/box_gen_01.js:110-160 | the band outside a tab's edge meets no panel |
| PatternProofs.StripsClearOfEachOther | box_gen/box_gen_01.js:110-160 | the bands outside two different tabs' edges do not meet |
| PatternProofs.TabClearOfPanels | box_gen/box_gen_01.js:110-160 | no placed tab overlaps any panel, for positive dimensions and 0 < tabWidth <= its edge length |
| PatternProofs.EdgeTabsApart | box_gen/box_gen_01.js:110-160 | no two different tabs overlap, under the same conditions |
| PatternProofs.TabOutsideItsPanel | box_gen/box_gen_01.js:110-160 | every corner of a placed tab lies on the far side of its edge, at most tabWidth away, and its panel on the near side |
| PatternProofs.MirrorPathInvolution | box_gen/box_gen_02.js:106-167 | reflecting a path twice gives it back |
| PatternProofs.MirrorCorners | box_gen/box_gen_02.js:106-115 | the reflection of a rectangle path is the path of the reflected rectangle |
| PatternProofs.MirrorEdgeTab | box_gen/box_gen_02.js:118-167 | the reflection of an edge tab is the tab on the mirrored edge of the reflected rectangle |
| PatternProofs.PanelMirror | box_gen/box_gen_02.js:77-115 | under x -> 2h + w - x left and right swap and each spine panel maps onto itself |
| PatternProofs.TabMirror | box_gen/box_gen_02.js:118-167 | under the same reflection each left_tab_k maps onto right_tab_k and top_tab_1 onto itself |
| PatternProofs.MirrorHost | box_gen/box_gen_02.js:118-167 | the reflection takes each tab's host edge onto the host edge of its mirror tab |
| PatternProofs.OrdersAreComplete | box_gen/basil.js:173-187 | the panel order lists each face once and the tab order each tab once |
| PatternProofs.FaceNameInjective | box_gen/basil.js:77-115 | different panels have different names |
| PatternProofs.FlapNameInjective | box_gen/basil.js:117-168 | different tabs have different names |
| PatternProofs.FaceAndFlapNamesDiffer | box_gen/basil.js:75-168 | no panel shares a name with a tab |
| PatternProofs.PatternRoster | box_gen/basil.js:171-187 | the group holds 13 shapes: the six panels in order front, bottom, back, top, left, right, then the seven tabs, each once |
| PatternProofs.PatternNamesDistinct | box_gen/box_gen_01.js:163-179 | no two children of the group share a name |
| PatternProofs.IndexOfDistinct | box_gen/basil.js:403-423 | in a list of distinctly named shapes, looking up a child's name finds that child |
| PatternProofs.LookupByName | box_gen/basil.js:403-423 | looking each panel or tab up by name in the group finds it at its place |
| PaperItems.Path.Rectangle | box_gen/basil.js:78 | a new rectangle path lists the corners bottom-left, top-left, top-right, bottom-right, unnamed |
| PaperItems.Path.ShiftX | box_gen/basil.js:200-201 | adding to one segment point's x changes that coordinate only |
| PaperItems.Path.SetRotation | box_gen/basil.js:126 | assigning a rotation turns every point about the bounds' centre and keeps that centre |
| PaperItems.Path.SetPosition | box_gen/basil.js:145 | assigning a position moves the path so its bounds' centre is there, keeping their size |
| PaperItems.Path.SetName | box_gen/basil.js:79 | naming a path changes its name only |
| PaperItems.Group.constructor | box_gen/basil.js:171-191 | a new group has the given name and children, in order |
| PaperItems.MakeTab | box_gen/basil.js:198-204 | makeTab returns a new unnamed path equal to `Taper(bounds)`, the up-pointing tab on the bottom edge of `bounds` |
| PaperItems.MakePanel | box_gen/basil.js:77-79 | each panel is a new path, named after its face, with the corners of its panel rectangle |
| PaperItems.MakeUpTab | box_gen/basil.js:130-133 | an unrotated tab made on a panel's top edge is the tab on that edge |
| PaperItems.MakeHalfTurnedTab | box_gen/basil.js:118-127 | a tab made along a panel's bottom edge and turned 180 degrees is the tab on that edge |
| PaperItems.MakeLeftTurnedTab | box_gen/basil.js:143-146 | left_tab_3's steps (taper, -90 degrees, position) yield the tab on the left panel's left edge |
| PaperItems.MakeRightTurnedTab | box_gen/basil.js:162-168 | right_tab_3's steps (taper, 90 degrees, position) yield the tab on the right panel's right edge |
| PaperItems.MakePlacedTab | box_gen/basil.js:117-168 | each tab is a new path named after it whose points are exactly the edge tab on its host panel's edge |
| PaperItems.MakePanels | box_gen/basil.js:76-115 | six new distinct paths, the panels in group order |
| PaperItems.MakePlacedTabs | box_gen/basil.js:117-168 | seven new distinct paths, the placed tabs in group order |
| PaperItems.MakeBoxPattern | box_gen/basil.js:75-194 | a new group "box" of 13 new, pairwise distinct paths whose names and points are exactly `Pattern(dims, tabWidth)` |
| BasilJs.MakeBoxPattern | box_gen/basil.js:28 | makeBoxPattern with tab width 144 |
| BasilJs.NamedPanelBounds | box_gen/basil.js:403-423 | looking a panel up by name finds it, and its bounds are its panel rectangle, the size and corner the artwork is fitted to |
| BoxGen02.MakeBoxPattern | box_gen/box_gen_02.js:28 | makeBoxPattern with tab width 144 |
| BoxGen02.TwoInchTabsFit | box_gen/box_gen_02.js:118-167 | with 144-point tabs every tab rectangle is at least twice as wide as tall if and only if w, h, d >= 288 |
| BoxGen01.MakeBoxPattern | box_gen/box_gen_01.js:28 | makeBoxPattern with tab width 36 |
| BoxGen01.MainPattern | box_gen/box_gen_01.js:202 | main's call builds the pattern of the 432 × 288 × 216 box with 36-point tabs |
| BoxGen01.MainPanels | box_gen/box_gen_01.js:69-104 | main's panels: front (288,0,432,288), bottom (288,288,432,216), back (288,504,432,288), top (288,792,432,216), left (0,288,288,216), right (720,288,288,216) |
| BoxGen01.MainTabs | box_gen/box_gen_01.js:110-160 | in main's box every tab rectangle is at least twice as wide as tall, and the tip edges are 360 (top_tab_1), 216 (_1 and _2 tabs) and 144 (_3 tabs) long |

## Left out

- Drawing and the page are left out, because they are DOM, canvas and file
  I/O and have no effect on the net's geometry. This covers `setup`,
  `downloadSVG`, `showItem`, `onInput`, `regenerate`, `main`'s display
  step, the window and document event wiring, and the artwork functions
  `generateSide`, `generateFront` and the others that import SVG elements.
  `BasilJs.NamedPanelBounds` states only the part of `regenerate` that
  reads the pattern.
- Fill colours, stroke colours and widths, and fonts are not modelled,
  because they are presentation only.
- The drawing library's general transforms and trigonometry are not
  modelled. Only the three angles the scripts use are, as exact maps.
- Floating point is not modelled. Coordinates are exact reals, so
  rounding in the library's rotation is absent.
- Each path is assigned a rotation at most once by the scripts, and only
  that case is modelled: `SetRotation` turns the current points about
  their bounds centre. Assigning a rotation to an already rotated path is
  left out.
- The scripts check nothing: no input validation, no error, and no
  clamping of a tab whose tip would be negative.
  - Non-positive dimensions raise no error and a tab tip is never clamped
    to zero length; the model follows the scripts in this. `Taper` lets the
    top corners cross when W < 2H, which gives a tip length of W - 2H.
  - Properties that need sane inputs carry them as preconditions. Examples
    are positive dimensions for non-overlap, and
    `0 < tabWidth <= edge length` for the tab bounds.
- The bounds of a tapered path equal its rectangle when 0 <= H <= W
  (`TabProofs.TaperKeepsBounds`). This is weaker than the makeTab comment's
  W >= 2H, which is the condition for a non-negative tip
  (`PatternProofs.TabsFit`).
- PatternProofs.EdgeTabsApart: tab-against-tab clearance is stated over
  the reference edge tabs. It carries over to the placed tabs through
  `PlacedTab`, which is defined as that edge tab.
- The bounds of the whole group, tabs included, are not stated. Only the
  panels' hull is (`PanelProofs.PanelHull`).
