# crowbar wire router — a Dafny model

crowbar is a flow editor. The user places boxes ("components") on a Qt
canvas and joins a socket on one box's face to a socket on another with
wires. This project models the part that works out where a wire goes: the
orthogonal auto-router of the newer canvas, the partial router of the older
canvas, and the geometry and bookkeeping both depend on.

What the model covers:

- **Socket facings and wire modes** (`Enums`). Sockets carry the program's values. Opposition is decided by the program's value-difference rule, including its quirk that `None` counts as opposite of `Right`.
- **Plane geometry** (`Geometry`). Points and rectangles, with Qt's y axis growing downward, and what it means for a polyline to be rectilinear.
- **Component geometry** (`ComponentGeometry`):
  - the 80×80 box centred on a component's position, and its four socket points;
  - a drag: the proposed position is clamped into the scene rectangle and snapped to the grid with Python's half-to-even `round`.
- **The newer router as functions** (`Routing`):
  - the branch table (straight, Z-bend, S-detour, C-wrap, L-bend) and each family's waypoints;
  - the arrowhead, and the whole route.
  - It is parameterised by the Z-or-S rule, so the rule as written and its evident intent can be compared (see Findings).
- **Whole-route theorems** (`RouteProperties`): under the corrected rule, clearance from both sockets, no zero-length segments and mirror symmetry; and exactly where the two rules differ.
- **The objects** (`Canvas`):
  - the point buffer a route is appended to;
  - `Component`, which holds its input and output wires and re-routes them all when it moves;
  - `Wire`, which registers with its two components and builds its route append by append through the router's helper methods. Each helper is proved to append exactly the waypoints the functions of `Routing` describe. A wire routes with the program's Z-or-S test unless it is built with the corrected one.
- **The older router** (`LegacyRouting`, `LegacyCanvas`). It works from the displacement between box centres and fills in only rightward-downward wires leaving a Right socket. Its output is compared with the newer router's.
- **The scene's sample flow and test layouts** (`SceneExamples`): concrete routes for every I, L, Z, S and C layout, and a drag of one box in the sample flow.

Coordinates are `real`, so the halving the router does is exact. The
clearance `min_len` is a parameter; the scene supplies its snap increment, 20.

## Model

| member | source | states |
|---|---|---|
| Enums.Socket.OppositeOf | src/widgets/canvas/core/Enums.py:17-23 | opposite exactly for Top/Bottom and Left/Right in either order, plus the pair None/Right that the value-difference rule admits |
| Enums.OppositeSymmetric | src/widgets/canvas/core/Enums.py:21 | being opposite does not depend on argument order |
| Enums.NotOppositeOfItself | src/widgets/canvas/core/Enums.py:21-23 | no socket is opposite itself |
| Enums.FacesOppositeIff | src/widgets/canvas/core/Enums.py:8-12 | two real faces are opposite iff they differ and lie on the same axis; adjacent faces never are |
| Enums.NoneOppositeOfRight | src/widgets/canvas/core/Enums.py:8-10 | the placeholder None counts as opposite of Right, both ways round |
| Enums.ModeValuesDistinct | src/widgets/canvas/core/Enums.py:35-38 | the four modes carry pairwise distinct values |
| ComponentGeometry.BoxRect | src/widgets/canvas/core/Component.py:12-13 | a component's box is 80 by 80 and centred on its position |
| ComponentGeometry.SocketPoint | src/widgets/canvas/core/Component.py:116-124 | each socket point is the midpoint of the face it names, as an offset of half the box size from the centre |
| ComponentGeometry.SocketPointOnBoxEdge | src/widgets/canvas/core/Component.py:116-124 | every socket point lies on the box rectangle, at the middle of the face it names |
| ComponentGeometry.OppositeSocketPoints | src/widgets/canvas/core/Component.py:59-63 | Top and Bottom sockets share x and are one height apart; Left and Right share y and are one width apart |
| ComponentGeometry.Clamp | src/widgets/canvas/core/Component.py:76-78 | the clamped coordinate lies in the interval, equals the input inside it, and the nearer bound outside it |
| ComponentGeometry.RoundHalfEven | src/widgets/canvas/core/Component.py:81-82 | Python's round: within one half of the input, ties going to the even integer |
| ComponentGeometry.Snap | src/widgets/canvas/core/Component.py:80-83 | the snapped coordinate is a multiple of the increment and within half an increment of the input |
| ComponentGeometry.SnapKeepsAligned | src/widgets/canvas/core/Component.py:80-83 | snapping a value already on the grid leaves it unchanged |
| ComponentGeometry.SnapStaysBetweenGridLines | src/widgets/canvas/core/Component.py:76-83 | a value between two grid lines snaps to a value between them |
| ComponentGeometry.ProposedPosition | src/widgets/canvas/core/Component.py:73-83 | the position a drag proposes has both coordinates on the grid |
| ComponentGeometry.ProposedPositionInScene | src/widgets/canvas/core/Component.py:74-83 | if the scene's edges lie on grid lines, the proposed position lies inside the scene |
| ComponentGeometry.ProposedPositionKeepsGridPoint | src/widgets/canvas/core/Component.py:76-83 | a grid point inside the scene is accepted unchanged |
| ComponentGeometry.SceneRectOnGrid | src/widgets/canvas/core/Scene.py:8-18 | the scene rectangle's edges lie on the 20-unit snap grid |
| Routing.RouteEndpoints | src/ui/widgets/canvas/core/Wire.py:108-157 | a route is the source point, at most four waypoints, the destination point and the three-point arrowhead ending on the destination |
| Routing.ArrowHeadShape | src/ui/widgets/canvas/core/Wire.py:337-392 | the arrowhead's wings lie 7 out from the destination along its facing and 5 to either side; the head ends on the socket point |
| Routing.StraightWhenAligned | src/ui/widgets/canvas/core/Wire.py:111-117 | between opposite sockets there are no waypoints exactly when the sockets are already in line |
| Routing.ZChoiceAsWritten | src/ui/widgets/canvas/core/Wire.py:119-127 | spells out the test as written, in the program's own terms: Z-bend iff displacement is at least 2·min_len leaving Bottom/Right or below 2·min_len leaving Top/Left; otherwise S |
| Routing.ZChoiceIntended | src/ui/widgets/canvas/core/Wire.py:137-145 | corrected rule: Z-bend iff the destination lies at least 2·min_len ahead of the way the source faces; otherwise S |
| Routing.ZBendOnHalfwayLine | src/ui/widgets/canvas/core/Wire.py:160-182 | a Z-bend adds two waypoints on the cross-line half-way between the sockets, in line with source and destination |
| Routing.SDetourShape | src/ui/widgets/canvas/core/Wire.py:184-227 | an S-detour adds four waypoints: min_len out from the source, two on the half-way line, min_len out from the destination |
| Routing.CWrapBeyondBoth | src/ui/widgets/canvas/core/Wire.py:229-280 | a C-wrap adds two waypoints on the line min_len beyond the outer socket, so at least min_len beyond both |
| Routing.LBendShape | src/ui/widgets/canvas/core/Wire.py:282-335 | between perpendicular sockets, an L-bend whose source faces the destination turns once, at a point on both sockets' lines; otherwise it leaves min_len out, turns at a corner min_len out from both sockets and arrives min_len out, every segment axis-parallel |
| Routing.ClearancePointIsAhead | src/ui/widgets/canvas/core/Wire.py:187-196 | the offset point lies on the socket's facing line, exactly min_len ahead |
| Routing.RouteRectilinear | src/ui/widgets/canvas/core/Wire.py:108-156 | in every branch and under either rule, every segment from source to destination is horizontal or vertical |
| RouteProperties.ClearanceFromBothSockets | src/ui/widgets/canvas/core/Wire.py:73-84 | with the corrected rule, every turning route leaves along the source's facing line, ahead of it; all but the inside L go min_len out and arrive from min_len out |
| RouteProperties.OppositeRouteHasNoZeroSegment | src/ui/widgets/canvas/core/Wire.py:111-145 | with the corrected rule, a route between opposite sockets not in line has no zero-length segment |
| RouteProperties.SwappedRouteIsMirror | src/ui/widgets/canvas/core/Wire.py:111-150 | with the corrected rule, routing opposite or identical sockets the other way round gives the same waypoints reversed |
| RouteProperties.RulesDisagreeOnlyInWindow | src/ui/widgets/canvas/core/Wire.py:119-120 | the rules differ exactly for a Top or Left source whose displacement lies strictly between -2·min_len and 2·min_len |
| RouteProperties.ZBendIntoSourceBox | src/ui/widgets/canvas/core/Wire.py:119-120 | as written, a concrete wire gets a first waypoint inside its own source box, and the reverse wire is not its mirror |
| RouteProperties.ZBendZeroSegment | src/ui/widgets/canvas/core/Wire.py:160-171 | as written, a concrete wire's first waypoint is the source point itself: a zero-length first segment |
| LegacyRouting.RouteEndpoints | src/widgets/canvas/core/Wire.py:61-131 | old routes run socket to socket with no arrowhead, and have no waypoints exactly outside the right-down Right-socket case |
| LegacyRouting.RouteRectilinearIff | src/widgets/canvas/core/Wire.py:71-125 | an old route is rectilinear iff it is a filled-in right-down Right-socket wire or its sockets already share a coordinate |
| LegacyRouting.MidlineInGap | src/widgets/canvas/core/Wire.py:90-111 | into Bottom or Left the old router turns on the vertical line half-way across the gap between the boxes |
| LegacyRouting.AgreesWithNewerRouter | src/widgets/canvas/core/Wire.py:75-111 | where they overlap, the old waypoints equal the newer Z-bend, inside L and C-wrap; into Bottom the old route arrives from 20 below, the newer from behind |
| Canvas.Polygon.constructor | src/ui/widgets/canvas/core/Wire.py:85 | a new point buffer is empty |
| Canvas.Polygon.Append | src/ui/widgets/canvas/core/Wire.py:108 | appending adds exactly one point at the end |
| Canvas.Component.constructor | src/widgets/canvas/core/Component.py:21-36 | a new component is at the given position with the given title (none by default) and no wires |
| Canvas.Component.Pos | src/widgets/canvas/core/Component.py:56-57 | the rectangle's centre is the component's position |
| Canvas.Component.Width | src/widgets/canvas/core/Component.py:59-60 | the width is the box width, 80 |
| Canvas.Component.Height | src/widgets/canvas/core/Component.py:62-63 | the height is the box height, 80 |
| Canvas.Component.SetTitle | src/widgets/canvas/core/Component.py:68-70 | a missing title is stored as the empty string, any other as given |
| Canvas.Component.AddInputWire | src/widgets/canvas/core/Component.py:126-127 | exactly one wire is appended to the input list; the output list is unchanged |
| Canvas.Component.AddOutputWire | src/widgets/canvas/core/Component.py:131-132 | exactly one wire is appended to the output list; the input list is unchanged |
| Canvas.RerouteEach | src/widgets/canvas/core/Component.py:86-89 | after re-routing a list of wires, every wire in it holds the route for the current positions; only the wires' polygons may change |
| Canvas.Component.PositionHasChanged | src/widgets/canvas/core/Component.py:84-89 | every attached wire, input or output, holds the route for the current positions; only the wires' polygons may change |
| Canvas.Component.MoveTo | src/widgets/canvas/core/Component.py:72-89 | the component moves to the clamped, snapped position and every attached wire is re-routed to match; only the centre and the wires' polygons may change |
| Canvas.Wire.constructor | src/ui/widgets/canvas/core/Wire.py:39-56 | a new wire records its mode (normal by default), title (empty by default) and sockets, is appended to its source's outputs and its destination's inputs, and is routed |
| Canvas.Wire.AutoRoute | src/ui/widgets/canvas/core/Wire.py:73-158 | the stored polygon is the route for the components' current positions, under the wire's Z-or-S rule (the rule as written unless the corrected one is asked for) |
| Canvas.Wire.AddWaypoints | src/ui/widgets/canvas/core/Wire.py:111-153 | the branch table appends exactly the waypoints of the family the sockets and displacement select, with the program's Z-or-S test or the corrected one as the wire's rule says |
| Canvas.Wire.RouteZPath | src/ui/widgets/canvas/core/Wire.py:160-182 | appends exactly the Z-bend waypoints |
| Canvas.Wire.RouteSPath | src/ui/widgets/canvas/core/Wire.py:184-227 | appends exactly the S-detour waypoints |
| Canvas.Wire.RouteCPath | src/ui/widgets/canvas/core/Wire.py:229-280 | appends exactly the C-wrap waypoints |
| Canvas.Wire.RouteLPath | src/ui/widgets/canvas/core/Wire.py:282-335 | appends exactly the L-bend waypoints |
| Canvas.Wire.AddPathArrowHead | src/ui/widgets/canvas/core/Wire.py:337-392 | appends exactly the arrowhead at the destination socket |
| Canvas.Wire.SetMode | src/ui/widgets/canvas/core/Wire.py:397-401 | the mode becomes the given one |
| Canvas.Wire.SetTitle | src/ui/widgets/canvas/core/Wire.py:406-408 | a missing title is stored as the empty string |
| LegacyCanvas.LegacyWire.constructor | src/widgets/canvas/core/Wire.py:26-40 | a new old-style wire is routed and records its mode (normal by default) and title (empty by default) |
| LegacyCanvas.LegacyWire.AutoRoute | src/widgets/canvas/core/Wire.py:48-131 | the stored polygon is the old route for the two components' positions |
| LegacyCanvas.LegacyWire.SetMode | src/widgets/canvas/core/Wire.py:136-140 | the mode becomes the given one |
| LegacyCanvas.LegacyWire.SetTitle | src/widgets/canvas/core/Wire.py:145-147 | a missing title is stored as the empty string |
| SceneExamples.ILayout | src/ui/widgets/canvas/core/Scene.py:161-192 | the four I-layout wires get no waypoints, under either rule |
| SceneExamples.LInsideLayout | src/ui/widgets/canvas/core/Scene.py:194-225 | with the program's rule, each inside-L wire turns at the single corner of the two socket lines |
| SceneExamples.LOutsideLayout | src/ui/widgets/canvas/core/Scene.py:227-258 | with the program's rule, each outside-L wire leaves by 20, turns at the outside corner and arrives from 20 out |
| SceneExamples.ZLayout | src/ui/widgets/canvas/core/Scene.py:260-291 | each Z-layout wire crosses on the half-way line, the same under either rule |
| SceneExamples.SLayout | src/ui/widgets/canvas/core/Scene.py:293-324 | each S-layout wire gets its four detour waypoints, the same under either rule |
| SceneExamples.CLayouts | src/ui/widgets/canvas/core/Scene.py:326-390 | with the program's rule, each C-layout wire wraps 20 beyond the outermost socket |
| SceneExamples.CSWrapLayout | src/ui/widgets/canvas/core/Scene.py:392-423 | the overlapping boxes are joined by S-detours, the same under either rule |
| SceneExamples.SampleFlowRoutes | src/ui/widgets/canvas/core/Scene.py:153-155 | the sample flow's false wire is a Z-bend through x = 80, and through x = 100 once its destination is at (200, 320) |
| SceneExamples.SnapHalfToEven | src/widgets/canvas/core/Component.py:80-83 | a drag to (200, 330) lands on (200, 320): the tie 16.5 rounds to the even 16 |
| SceneExamples.SampleFlowDrag | src/widgets/canvas/core/Component.py:72-89 | building the sample flow's false wire and dragging its destination re-routes the stored polygon to the wider Z-bend |

## Left out

- Painting is not modelled: colour tables, pens, brushes, `paint`, `paintShape`, `paintTitle`, the dots on route points, the background grid, cursors and item flags. None of it affects a route.
- The `print` calls in the newer `autoRoute` and its unused `target` argument are left out. They are debug output only.
- Qt's item-change protocol is reduced to `Component.MoveTo`. `itemChange` returns the clamped, snapped position, and Qt then reports the finished move, which re-routes the wires. The model performs both steps in one method. It does not model the "no scene" case or the other change kinds, which go to the base class.
- The component's position is modelled as the centre of its box, and a move updates that centre. In Qt, a move shifts the item and leaves its rectangle where it was, which is why the program notes that re-routing still sees the old positions (src/widgets/canvas/core/Component.py:85). The model states the intended behaviour: wires follow the moved box.
- `socketPoint(Socket.NONE)` returns nothing in the program. The model routes only between the four real faces (`FaceSocket`).
- The newer `Wire` takes the scene as an argument only to read its snap increment. The model passes that increment as `minLen`.
- Removing wires and deleting components are TODOs in the program and are not modelled.
- Coordinates are exact reals; Qt's double-precision rounding is not modelled.
- Only the newer `Wire` is registered with its components; the older one is not, and the older `Component` calls `autoRoute()` with no arguments. The model therefore pairs `Component` with the newer wire, and the older wire routes once, when it is built.
- Canvas.Component.MoveTo: requires a positive snap increment. The scene's increment is 20; with zero the program would divide by zero.
- A wire also carries the Z-or-S rule it routes with (`rule`), which the program does not have. It defaults to the rule as written, so a wire built as the program builds it routes as the program does; the corrected rule (see Findings) can be asked for instead.
- Two behaviours look unintended but are not claimed as findings:
  - A straight route ignores which way the aligned sockets face, so two boxes facing away from each other are joined by a line through both of them.
  - An inside L-bend ignores how the destination faces. `LegacyRouting.AgreesWithNewerRouter` shows it reaching a Bottom socket from behind.

## Findings

| source | as written | input that shows it | evidently intended | confidence | as-written member | corrected member |
|---|---|---|---|---|---|---|
| src/ui/widgets/canvas/core/Wire.py:119-120 (and the mirror at 137-138) | a Top (Left) source takes a Z-bend when the displacement is below `2 * min_len`, so any destination up to `2 * min_len` behind the source's face also gets a Z-bend | a wire from the Top of the box at (0, 0) to the Bottom of the box at (200, -60), min_len 20: the first waypoint is (0, -30), inside the source box. Routing the pair the other way round gives an S-detour. With the box at (200, -80), the first waypoint is the source point itself | the mirror of the Bottom (Right) test: a Z-bend only when the displacement is at most `-2 * min_len`, otherwise an S-detour | not executed | RouteProperties.ZBendIntoSourceBox | Routing.ZChoiceIntended |
