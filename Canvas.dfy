/** The objects of the newer canvas: the point buffer a route is built in,
    components (boxes) that hold the wires attached to them, and wires that
    re-route themselves from the current positions of their two components.
    Component and Wire refer to each other, so they share this module. */
module Canvas {
  import opened Enums
  import opened Geometry
  import opened ComponentGeometry
  import opened Routing
  import Optional

  /** A polygon buffer that a route is appended to point by point. */
  class Polygon {
    var points: seq<Point>

    constructor ()
      ensures points == []
    {
      points := [];
    }

    method Append(p: Point)
      modifies this
      ensures points == old(points) + [p]
    {
      points := points + [p];
    }
  }

  /** A title given as `None` is stored as the empty string. */
  function TitleOrEmpty(title: Optional.Option<string>): string
  {
    match title
    case None => ""
    case Some(t) => t
  }

  /** A box on the canvas, centred on its position, with the wires that end at
      it (input) and the wires that start at it (output). */
  class Component {
    var centre: Point
    var title: Optional.Option<string>
    var wiringIn: seq<Wire>
    var wiringOut: seq<Wire>

    constructor (pos: Point, title: Optional.Option<string> := Optional.None)
      ensures centre == pos && this.title == title
      ensures wiringIn == [] && wiringOut == []
    {
      centre := pos;
      this.title := title;
      wiringIn := [];
      wiringOut := [];
    }

    /** The centre of the box rectangle: the component's position. */
    function Pos(): (p: Point)
      reads this
      ensures p == centre
    {
      BoxRect(centre).Center()
    }

    function Width(): (w: real)
      reads this
      ensures w == BoxWidth
    {
      BoxRect(centre).width
    }

    function Height(): (h: real)
      reads this
      ensures h == BoxHeight
    {
      BoxRect(centre).height
    }

    function SocketPoint(side: FaceSocket): Point
      reads this
    {
      ComponentGeometry.SocketPoint(centre, side)
    }

    method SetTitle(title: Optional.Option<string>)
      modifies this`title
      ensures this.title == Optional.Some(TitleOrEmpty(title))
    {
      this.title := Optional.Some(TitleOrEmpty(title));
    }

    method AddInputWire(wire: Wire)
      modifies this`wiringIn
      ensures wiringIn == old(wiringIn) + [wire]
      ensures wiringOut == old(wiringOut)
    {
      wiringIn := wiringIn + [wire];
    }

    method AddOutputWire(wire: Wire)
      modifies this`wiringOut
      ensures wiringOut == old(wiringOut) + [wire]
      ensures wiringIn == old(wiringIn)
    {
      wiringOut := wiringOut + [wire];
    }

    /** The position-has-changed notification: every input wire and every
        output wire is routed again from the current positions. Only the wires'
        polygons change. */
    method PositionHasChanged()
      modifies wiringIn`polygon, wiringOut`polygon
      ensures forall w :: w in wiringIn || w in wiringOut ==> w.Routed()
    {
      RerouteEach(wiringIn);
      RerouteEach(wiringOut);
    }

    /** A drag to `newPos` inside a scene with rectangle `scene` and snap
        increment `grid`: the proposed position is kept in the scene and snapped,
        the component moves there, and its wires are routed again. */
    method MoveTo(newPos: Point, scene: Rect, grid: real)
      requires grid > 0.0
      modifies this`centre, wiringIn`polygon, wiringOut`polygon
      ensures centre == ProposedPosition(newPos, scene, grid)
      ensures forall w :: w in wiringIn || w in wiringOut ==> w.Routed()
    {
      centre := ProposedPosition(newPos, scene, grid);
      PositionHasChanged();
    }
  }

  /** Routes each wire of `wires` again, in order; a wire routed earlier stays
      routed, since re-routing one wire changes only that wire's polygon. */
  method RerouteEach(wires: seq<Wire>)
    modifies wires`polygon
    ensures forall j :: 0 <= j < |wires| ==> wires[j].Routed()
  {
    for i := 0 to |wires|
      invariant forall j :: 0 <= j < i ==> wires[j].Routed()
    {
      wires[i].AutoRoute();
    }
  }

  /** A directed wire between a socket of one component and a socket of
      another, with its mode, its title and the polygon the router built.
      `rule` selects the Z-or-S test for Top and Left sources: `AsWritten` is
      the router's own test, `Intended` the corrected one. */
  class Wire {
    var mode: Mode
    var title: string
    const fromComponent: Component
    const fromSocket: FaceSocket
    const toComponent: Component
    const toSocket: FaceSocket
    const minLen: real
    const rule: ZRule
    var polygon: seq<Point>

    /** The route for the current positions of the two components. */
    function ExpectedRoute(): seq<Point>
      reads fromComponent`centre, toComponent`centre
    {
      Route(rule, fromSocket, toSocket,
            ComponentGeometry.SocketPoint(fromComponent.centre, fromSocket),
            ComponentGeometry.SocketPoint(toComponent.centre, toSocket), minLen)
    }

    /** The stored polygon is the route for the current positions. */
    predicate Routed()
      reads this`polygon, fromComponent`centre, toComponent`centre
    {
      polygon == ExpectedRoute()
    }

    /** A new wire registers itself as an output of its source component and an
        input of its destination component, and routes itself. `minLen` is the
        scene's snap increment; a wire built without a mode or a title is a
        normal one without a title, and one built without a rule routes as the
        router is written. */
    constructor (minLen: real,
                 fromComponent: Component, fromSocket: FaceSocket,
                 toComponent: Component, toSocket: FaceSocket,
                 mode: Mode := DefaultMode, title: Optional.Option<string> := Optional.None,
                 rule: ZRule := AsWritten)
      modifies fromComponent`wiringOut, toComponent`wiringIn
      ensures this.fromComponent == fromComponent && this.fromSocket == fromSocket
      ensures this.toComponent == toComponent && this.toSocket == toSocket
      ensures this.minLen == minLen && this.rule == rule
      ensures this.mode == mode && this.title == TitleOrEmpty(title)
      ensures fromComponent.wiringOut == old(fromComponent.wiringOut) + [this]
      ensures toComponent.wiringIn == old(toComponent.wiringIn) + [this]
      ensures Routed()
    {
      this.fromComponent := fromComponent;
      this.fromSocket := fromSocket;
      this.toComponent := toComponent;
      this.toSocket := toSocket;
      this.minLen := minLen;
      this.rule := rule;
      new;
      SetMode(mode);
      SetTitle(title);
      fromComponent.AddOutputWire(this);
      toComponent.AddInputWire(this);
      AutoRoute();
    }

    /** Builds the route from the current socket points and stores it. */
    method AutoRoute()
      modifies this`polygon
      ensures Routed()
    {
      var route := new Polygon();
      var pFrom := fromComponent.SocketPoint(fromSocket);
      var pTo := toComponent.SocketPoint(toSocket);
      var deltaX := pTo.x - pFrom.x;
      var deltaY := pTo.y - pFrom.y;

      // First point (leave the source socket)
      route.Append(pFrom);

      // Intermediate waypoints
      AddWaypoints(route, pFrom, pTo, deltaX, deltaY);

      // Last point (enter the destination socket)
      route.Append(pTo);
      AddPathArrowHead(route);
      polygon := route.points;
    }

    /** The branch table of the router: I, Z or S for opposite sockets, C for
        identical sockets, L otherwise. A Top or Left source has room for a
        Z-bend when `RoomBackward(rule, ...)` holds: as written, a displacement
        below `2 * minLen`. */
    method AddWaypoints(route: Polygon, pFrom: Point, pTo: Point, deltaX: real, deltaY: real)
      requires deltaX == pTo.x - pFrom.x && deltaY == pTo.y - pFrom.y
      modifies route
      ensures route.points == old(route.points) + Waypoints(rule, fromSocket, toSocket, pFrom, pTo, minLen)
    {
      if toSocket.OppositeOf(fromSocket) {
        if fromSocket == Top || fromSocket == Bottom {
          if deltaX == 0.0 {
            // straight vertical
            assert Classify(rule, fromSocket, toSocket, pFrom, pTo, minLen) == Straight;
          } else if (deltaY >= 2.0 * minLen && fromSocket == Bottom)
                    || (RoomBackward(rule, deltaY, minLen) && fromSocket == Top) {
            assert Classify(rule, fromSocket, toSocket, pFrom, pTo, minLen) == ZBend;
            RouteZPath(route, pFrom, pTo, deltaX, deltaY);
          } else {
            assert Classify(rule, fromSocket, toSocket, pFrom, pTo, minLen) == SBend;
            RouteSPath(route, pFrom, pTo);
          }
        } else {
          if deltaY == 0.0 {
            // straight horizontal
            assert Classify(rule, fromSocket, toSocket, pFrom, pTo, minLen) == Straight;
          } else if (deltaX >= 2.0 * minLen && fromSocket == Right)
                    || (RoomBackward(rule, deltaX, minLen) && fromSocket == Left) {
            assert Classify(rule, fromSocket, toSocket, pFrom, pTo, minLen) == ZBend;
            RouteZPath(route, pFrom, pTo, deltaX, deltaY);
          } else {
            assert Classify(rule, fromSocket, toSocket, pFrom, pTo, minLen) == SBend;
            RouteSPath(route, pFrom, pTo);
          }
        }
      } else if toSocket == fromSocket {
        assert Classify(rule, fromSocket, toSocket, pFrom, pTo, minLen) == CWrap;
        RouteCPath(route, pFrom, pTo, deltaX, deltaY);
      } else {
        assert Classify(rule, fromSocket, toSocket, pFrom, pTo, minLen) == LBend;
        RouteLPath(route, pFrom, pTo, deltaX, deltaY);
      }
    }

    method RouteZPath(route: Polygon, pFrom: Point, pTo: Point, deltaX: real, deltaY: real)
      requires deltaX == pTo.x - pFrom.x && deltaY == pTo.y - pFrom.y
      modifies route
      ensures route.points == old(route.points) + ZWaypoints(fromSocket, pFrom, pTo)
    {
      if fromSocket == Top || fromSocket == Bottom {
        var offsetY := deltaY / 2.0;
        route.Append(Point(pFrom.x, pFrom.y + offsetY));
        route.Append(Point(pTo.x, pFrom.y + offsetY));
      } else {
        var offsetX := deltaX / 2.0;
        route.Append(Point(pFrom.x + offsetX, pFrom.y));
        route.Append(Point(pFrom.x + offsetX, pTo.y));
      }
    }

    method RouteSPath(route: Polygon, pFrom: Point, pTo: Point)
      modifies route
      ensures route.points == old(route.points) + SWaypoints(fromSocket, toSocket, pFrom, pTo, minLen)
    {
      var offsetFromX, offsetFromY, offsetToX, offsetToY;
      if fromSocket == Top || fromSocket == Bottom {
        offsetFromX := 0.0;
        offsetFromY := if fromSocket == Bottom then minLen else -minLen;
        offsetToX := 0.0;
        offsetToY := if toSocket == Bottom then minLen else -minLen;
      } else {
        offsetFromX := if fromSocket == Right then minLen else -minLen;
        offsetFromY := 0.0;
        offsetToX := if toSocket == Right then minLen else -minLen;
        offsetToY := 0.0;
      }
      var offsetFromX2 := (pTo.x - pFrom.x) / 2.0;
      var offsetFromY2 := (pTo.y - pFrom.y) / 2.0;
      // First, an offset point
      route.Append(Point(pFrom.x + offsetFromX, pFrom.y + offsetFromY));
      // Then a Z-shaped route between the offset points
      if fromSocket == Top || fromSocket == Bottom {
        route.Append(Point(pFrom.x + offsetFromX2, pFrom.y + offsetFromY));
        route.Append(Point(pFrom.x + offsetFromX2, pTo.y + offsetToY));
      } else {
        route.Append(Point(pFrom.x + offsetFromX, pFrom.y + offsetFromY2));
        route.Append(Point(pTo.x + offsetToX, pFrom.y + offsetFromY2));
      }
      // Finally, another offset point
      route.Append(Point(pTo.x + offsetToX, pTo.y + offsetToY));
    }

    method RouteCPath(route: Polygon, pFrom: Point, pTo: Point, deltaX: real, deltaY: real)
      requires deltaX == pTo.x - pFrom.x && deltaY == pTo.y - pFrom.y
      modifies route
      ensures route.points == old(route.points) + CWaypoints(fromSocket, toSocket, pFrom, pTo, minLen)
    {
      if (deltaY >= 0.0 && fromSocket == Top) || (deltaY < 0.0 && toSocket == Top) {
        var offsetY := Min(pFrom.y, pTo.y) - minLen;
        route.Append(Point(pFrom.x, offsetY));
        route.Append(Point(pTo.x, offsetY));
      } else if (deltaY <= 0.0 && fromSocket == Bottom) || (deltaY > 0.0 && toSocket == Bottom) {
        var offsetY := Max(pFrom.y, pTo.y) + minLen;
        route.Append(Point(pFrom.x, offsetY));
        route.Append(Point(pTo.x, offsetY));
      } else if (deltaX >= 0.0 && fromSocket == Left) || (deltaX < 0.0 && toSocket == Left) {
        var offsetX := Min(pFrom.x, pTo.x) - minLen;
        route.Append(Point(offsetX, pFrom.y));
        route.Append(Point(offsetX, pTo.y));
      } else {
        var offsetX := Max(pFrom.x, pTo.x) + minLen;
        route.Append(Point(offsetX, pFrom.y));
        route.Append(Point(offsetX, pTo.y));
      }
    }

    method RouteLPath(route: Polygon, pFrom: Point, pTo: Point, deltaX: real, deltaY: real)
      requires deltaX == pTo.x - pFrom.x && deltaY == pTo.y - pFrom.y
      modifies route
      ensures route.points == old(route.points) + LWaypoints(fromSocket, toSocket, pFrom, pTo, minLen)
    {
      if (fromSocket == Top && deltaY < 0.0) || (fromSocket == Bottom && deltaY > 0.0)
         || (fromSocket == Left && deltaX < 0.0) || (fromSocket == Right && deltaX > 0.0)
      {
        // Inside L: only the inside corner point
        var pX, pY;
        if fromSocket == Top || fromSocket == Bottom {
          pX, pY := pFrom.x, pTo.y;
        } else {
          pX, pY := pTo.x, pFrom.y;
        }
        route.Append(Point(pX, pY));
      } else {
        // Outside L
        var offsetFromX, offsetFromY, offsetToX, offsetToY;
        if fromSocket == Top || fromSocket == Bottom {
          offsetFromX := 0.0;
          offsetFromY := if fromSocket == Bottom then minLen else -minLen;
        } else {
          offsetFromX := if fromSocket == Right then minLen else -minLen;
          offsetFromY := 0.0;
        }
        if toSocket == Top || toSocket == Bottom {
          offsetToX := 0.0;
          offsetToY := if toSocket == Bottom then minLen else -minLen;
        } else {
          offsetToX := if toSocket == Right then minLen else -minLen;
          offsetToY := 0.0;
        }
        // First, an offset point
        route.Append(Point(pFrom.x + offsetFromX, pFrom.y + offsetFromY));
        // Then an offset point at the outside corner
        var pX, pY;
        if fromSocket == Top || fromSocket == Bottom {
          pX, pY := pTo.x + offsetToX, pFrom.y + offsetFromY;
        } else {
          pX, pY := pFrom.x + offsetFromX, pTo.y + offsetToY;
        }
        route.Append(Point(pX, pY));
        // Finally, another offset point
        route.Append(Point(pTo.x + offsetToX, pTo.y + offsetToY));
      }
    }

    method AddPathArrowHead(wirePath: Polygon)
      modifies wirePath
      ensures wirePath.points == old(wirePath.points) + ArrowHead(toSocket, toComponent.SocketPoint(toSocket))
    {
      var socket := toComponent.SocketPoint(toSocket);
      if toSocket == Top {
        wirePath.Append(Point(socket.x - 5.0, socket.y - 7.0));
        wirePath.Append(Point(socket.x + 5.0, socket.y - 7.0));
      } else if toSocket == Right {
        wirePath.Append(Point(socket.x + 7.0, socket.y - 5.0));
        wirePath.Append(Point(socket.x + 7.0, socket.y + 5.0));
      } else if toSocket == Bottom {
        wirePath.Append(Point(socket.x + 5.0, socket.y + 7.0));
        wirePath.Append(Point(socket.x - 5.0, socket.y + 7.0));
      } else {
        wirePath.Append(Point(socket.x - 7.0, socket.y - 5.0));
        wirePath.Append(Point(socket.x - 7.0, socket.y + 5.0));
      }
      wirePath.Append(Point(socket.x, socket.y));
    }

    method SetMode(mode: Mode)
      modifies this`mode
      ensures this.mode == mode
    {
      this.mode := mode;
    }

    method SetTitle(title: Optional.Option<string>)
      modifies this`title
      ensures this.title == TitleOrEmpty(title)
    {
      this.title := TitleOrEmpty(title);
    }
  }
}
