/** The wire of the older canvas: it routes itself once, from the components
    it is given, and keeps its mode and title. It is not registered with its
    components. */
module LegacyCanvas {
  import opened Enums
  import opened Geometry
  import LegacyRouting
  import Canvas
  import Optional

  class LegacyWire {
    var mode: Mode
    var title: string
    var polygon: seq<Point>

    constructor (fromComponent: Canvas.Component, fromSocket: FaceSocket,
                 toComponent: Canvas.Component, toSocket: FaceSocket,
                 mode: Mode := DefaultMode, title: Optional.Option<string> := Optional.None)
      ensures polygon == LegacyRouting.Route(fromComponent.centre, fromSocket, toComponent.centre, toSocket)
      ensures this.mode == mode && this.title == Canvas.TitleOrEmpty(title)
    {
      new;
      AutoRoute(fromComponent, fromSocket, toComponent, toSocket);
      SetMode(mode);
      SetTitle(title);
    }

    /** Routes from the centre displacement of the two components; only a
        rightward-downward wire from a Right socket gets waypoints. */
    method AutoRoute(fromComponent: Canvas.Component, fromSocket: FaceSocket,
                     toComponent: Canvas.Component, toSocket: FaceSocket)
      modifies this`polygon
      ensures polygon == LegacyRouting.Route(fromComponent.centre, fromSocket, toComponent.centre, toSocket)
    {
      var newPath := new Canvas.Polygon();
      // First point
      newPath.Append(fromComponent.SocketPoint(fromSocket));

      var deltaX := toComponent.Pos().x - fromComponent.Pos().x;
      var deltaY := toComponent.Pos().y - fromComponent.Pos().y;

      if deltaX > 0.0 && deltaY > 0.0 && fromSocket == Right {
        var pFrom := fromComponent.SocketPoint(fromSocket);
        var pTo := toComponent.SocketPoint(toSocket);
        if toSocket == Top {
          newPath.Append(Point(pTo.x, pFrom.y));
        } else if toSocket == Right {
          newPath.Append(Point(pTo.x + 20.0, pFrom.y));
          newPath.Append(Point(pTo.x + 20.0, pTo.y));
        } else if toSocket == Bottom {
          newPath.Append(Point(pFrom.x + (deltaX - toComponent.Width()) / 2.0, pFrom.y));
          newPath.Append(Point(pFrom.x + (deltaX - toComponent.Width()) / 2.0, pTo.y + 20.0));
          newPath.Append(Point(pTo.x, pTo.y + 20.0));
        } else {
          newPath.Append(Point(pFrom.x + (deltaX - toComponent.Width()) / 2.0, pFrom.y));
          newPath.Append(Point(pFrom.x + (deltaX - toComponent.Width()) / 2.0, pTo.y));
        }
      }
      // Every other direction and source socket: no waypoints

      // Last point
      newPath.Append(toComponent.SocketPoint(toSocket));
      polygon := newPath.points;
    }

    method SetMode(mode: Mode)
      modifies this`mode
      ensures this.mode == mode
    {
      this.mode := mode;
    }

    method SetTitle(title: Optional.Option<string>)
      modifies this`title
      ensures this.title == Canvas.TitleOrEmpty(title)
    {
      this.title := Canvas.TitleOrEmpty(title);
    }
  }
}
