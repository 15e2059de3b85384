/** The sample flow and the test layouts of the newer scene, routed with the
    scene's clearance of 20, and a drag of one box in the sample flow. */
module SceneExamples {
  import opened Enums
  import opened Geometry
  import opened ComponentGeometry
  import opened Routing
  import Canvas
  import Optional

  /** The waypoints of a wire between boxes centred on `a` and `b`, with the
      scene's clearance. */
  function LayoutWaypoints(rule: ZRule, a: Point, fs: FaceSocket, b: Point, ts: FaceSocket): seq<Point>
  {
    Waypoints(rule, fs, ts, SocketPoint(a, fs), SocketPoint(b, ts), GridSnapIncrement)
  }

  /** Both routing rules give the same waypoints for this wire. */
  predicate RulesAgree(a: Point, fs: FaceSocket, b: Point, ts: FaceSocket)
  {
    LayoutWaypoints(AsWritten, a, fs, b, ts) == LayoutWaypoints(Intended, a, fs, b, ts)
  }

  /** I-shaped layout: opposite sockets in line get no waypoints, under
      either rule. */
  lemma ILayout()
    ensures var base := Point(0.0, 0.0);
            && LayoutWaypoints(Intended, base, Top, Point(0.0, -120.0), Bottom) == []
            && LayoutWaypoints(Intended, base, Bottom, Point(0.0, 120.0), Top) == []
            && LayoutWaypoints(Intended, base, Left, Point(-120.0, 0.0), Right) == []
            && LayoutWaypoints(Intended, base, Right, Point(120.0, 0.0), Left) == []
            && RulesAgree(base, Top, Point(0.0, -120.0), Bottom)
            && RulesAgree(base, Left, Point(-120.0, 0.0), Right)
  {
    IUp();
    IDown();
    ILeft();
    IRight();
  }

  lemma IUp()
    ensures LayoutWaypoints(Intended, Point(0.0, 0.0), Top, Point(0.0, -120.0), Bottom) == []
    ensures RulesAgree(Point(0.0, 0.0), Top, Point(0.0, -120.0), Bottom)
  {
  }

  lemma IDown()
    ensures LayoutWaypoints(Intended, Point(0.0, 0.0), Bottom, Point(0.0, 120.0), Top) == []
  {
  }

  lemma ILeft()
    ensures LayoutWaypoints(Intended, Point(0.0, 0.0), Left, Point(-120.0, 0.0), Right) == []
    ensures RulesAgree(Point(0.0, 0.0), Left, Point(-120.0, 0.0), Right)
  {
  }

  lemma IRight()
    ensures LayoutWaypoints(Intended, Point(0.0, 0.0), Right, Point(120.0, 0.0), Left) == []
  {
  }

  /** Inside L layout: each source faces its destination, one corner each. */
  lemma LInsideLayout()
    ensures var base := Point(400.0, 0.0);
            && LayoutWaypoints(AsWritten, base, Top, Point(520.0, -120.0), Left) == [Point(400.0, -120.0)]
            && LayoutWaypoints(AsWritten, base, Bottom, Point(280.0, 120.0), Right) == [Point(400.0, 120.0)]
            && LayoutWaypoints(AsWritten, base, Left, Point(280.0, -120.0), Bottom) == [Point(280.0, 0.0)]
            && LayoutWaypoints(AsWritten, base, Right, Point(520.0, 120.0), Top) == [Point(520.0, 0.0)]
  {
  }

  /** Outside L layout: each source faces away, so the wire leaves by 20,
      turns at an outside corner and arrives from 20 out. */
  lemma LOutsideLayout()
    ensures var base := Point(800.0, 0.0);
            && LayoutWaypoints(AsWritten, base, Left, Point(910.0, -120.0), Top)
               == [Point(740.0, 0.0), Point(740.0, -180.0), Point(910.0, -180.0)]
            && LayoutWaypoints(AsWritten, base, Right, Point(690.0, 120.0), Bottom)
               == [Point(860.0, 0.0), Point(860.0, 180.0), Point(690.0, 180.0)]
            && LayoutWaypoints(AsWritten, base, Bottom, Point(690.0, -120.0), Left)
               == [Point(800.0, 60.0), Point(630.0, 60.0), Point(630.0, -120.0)]
            && LayoutWaypoints(AsWritten, base, Top, Point(910.0, 120.0), Right)
               == [Point(800.0, -60.0), Point(970.0, -60.0), Point(970.0, 120.0)]
  {
  }

  /** Z layout: the sockets are exactly two clearances apart along the
      source's axis, so both rules draw a Z-bend across the half-way line. */
  lemma ZLayout()
    ensures var base := Point(0.0, 400.0);
            && LayoutWaypoints(Intended, base, Top, Point(120.0, 280.0), Bottom)
               == [Point(0.0, 340.0), Point(120.0, 340.0)]
            && LayoutWaypoints(Intended, base, Bottom, Point(-120.0, 520.0), Top)
               == [Point(0.0, 460.0), Point(-120.0, 460.0)]
            && LayoutWaypoints(Intended, base, Left, Point(-120.0, 280.0), Right)
               == [Point(-60.0, 400.0), Point(-60.0, 280.0)]
            && LayoutWaypoints(Intended, base, Right, Point(120.0, 520.0), Left)
               == [Point(60.0, 400.0), Point(60.0, 520.0)]
            && RulesAgree(base, Top, Point(120.0, 280.0), Bottom)
            && RulesAgree(base, Left, Point(-120.0, 280.0), Right)
  {
  }

  /** S layout: each source faces away from its destination, so both rules
      draw an S-detour. */
  lemma SLayout()
    ensures var base := Point(400.0, 400.0);
            && LayoutWaypoints(Intended, base, Bottom, Point(520.0, 280.0), Top)
               == [Point(400.0, 460.0), Point(460.0, 460.0), Point(460.0, 220.0), Point(520.0, 220.0)]
            && LayoutWaypoints(Intended, base, Top, Point(280.0, 520.0), Bottom)
               == [Point(400.0, 340.0), Point(340.0, 340.0), Point(340.0, 580.0), Point(280.0, 580.0)]
            && LayoutWaypoints(Intended, base, Right, Point(280.0, 280.0), Left)
               == [Point(460.0, 400.0), Point(460.0, 340.0), Point(220.0, 340.0), Point(220.0, 280.0)]
            && LayoutWaypoints(Intended, base, Left, Point(520.0, 520.0), Right)
               == [Point(340.0, 400.0), Point(340.0, 460.0), Point(580.0, 460.0), Point(580.0, 520.0)]
            && RulesAgree(base, Top, Point(280.0, 520.0), Bottom)
            && RulesAgree(base, Left, Point(520.0, 520.0), Right)
  {
  }

  /** C layouts: identical sockets wrap 20 beyond the outermost socket, whether
      the destination or the source is the outermost. */
  lemma CLayouts()
    ensures var dest := Point(0.0, 800.0);
            var src := Point(400.0, 800.0);
            && LayoutWaypoints(AsWritten, dest, Top, Point(120.0, 680.0), Top)
               == [Point(0.0, 620.0), Point(120.0, 620.0)]
            && LayoutWaypoints(AsWritten, dest, Bottom, Point(-120.0, 920.0), Bottom)
               == [Point(0.0, 980.0), Point(-120.0, 980.0)]
            && LayoutWaypoints(AsWritten, dest, Left, Point(-120.0, 680.0), Left)
               == [Point(-180.0, 800.0), Point(-180.0, 680.0)]
            && LayoutWaypoints(AsWritten, dest, Right, Point(120.0, 920.0), Right)
               == [Point(180.0, 800.0), Point(180.0, 920.0)]
            && LayoutWaypoints(AsWritten, src, Bottom, Point(520.0, 680.0), Bottom)
               == [Point(400.0, 860.0), Point(520.0, 860.0)]
            && LayoutWaypoints(AsWritten, src, Top, Point(280.0, 920.0), Top)
               == [Point(400.0, 740.0), Point(280.0, 740.0)]
            && LayoutWaypoints(AsWritten, src, Right, Point(280.0, 680.0), Right)
               == [Point(460.0, 800.0), Point(460.0, 680.0)]
            && LayoutWaypoints(AsWritten, src, Left, Point(520.0, 920.0), Left)
               == [Point(340.0, 800.0), Point(340.0, 920.0)]
  {
  }

  /** C layout where an S-shape has to wrap: the boxes overlap along the
      source's axis, and both rules draw S-detours. */
  lemma CSWrapLayout()
    ensures var base := Point(800.0, 800.0);
            && LayoutWaypoints(Intended, base, Bottom, Point(880.0, 680.0), Top)
               == [Point(800.0, 860.0), Point(840.0, 860.0), Point(840.0, 620.0), Point(880.0, 620.0)]
            && LayoutWaypoints(Intended, base, Top, Point(720.0, 920.0), Bottom)
               == [Point(800.0, 740.0), Point(760.0, 740.0), Point(760.0, 980.0), Point(720.0, 980.0)]
            && LayoutWaypoints(Intended, base, Right, Point(680.0, 720.0), Left)
               == [Point(860.0, 800.0), Point(860.0, 760.0), Point(620.0, 760.0), Point(620.0, 720.0)]
            && LayoutWaypoints(Intended, base, Left, Point(920.0, 880.0), Right)
               == [Point(740.0, 800.0), Point(740.0, 840.0), Point(980.0, 840.0), Point(980.0, 880.0)]
            && RulesAgree(base, Top, Point(720.0, 920.0), Bottom)
            && RulesAgree(base, Left, Point(920.0, 880.0), Right)
  {
  }

  /** The sample flow: the condition's false wire leaves its Right socket and
      enters the second action's Left socket. Dragging the second action
      towards (200, 330) snaps it to (200, 320), half to even, and the wire,
      registered with both boxes, is routed again as a wider Z-bend. */
  method SampleFlowDrag() returns (before: seq<Point>, after: seq<Point>)
    ensures before == [Point(40.0, 160.0), Point(80.0, 160.0), Point(80.0, 320.0), Point(120.0, 320.0),
                       Point(113.0, 315.0), Point(113.0, 325.0), Point(120.0, 320.0)]
    ensures after == [Point(40.0, 160.0), Point(100.0, 160.0), Point(100.0, 320.0), Point(160.0, 320.0),
                      Point(153.0, 315.0), Point(153.0, 325.0), Point(160.0, 320.0)]
  {
    var condition := new Canvas.Component(Point(0.0, 160.0), Optional.Some("Condition"));
    var action2 := new Canvas.Component(Point(160.0, 320.0), Optional.Some("Action 2"));
    var wire3 := new Canvas.Wire(GridSnapIncrement, condition, Right, action2, Left, False);
    SampleFlowRoutes();
    before := wire3.polygon;
    SnapHalfToEven();
    action2.MoveTo(Point(200.0, 330.0), SceneRect, GridSnapIncrement);
    assert action2.centre == Point(200.0, 320.0);
    assert wire3 in action2.wiringIn;
    after := wire3.polygon;
  }

  /** The false wire's route before and after the drag. */
  lemma SampleFlowRoutes()
    ensures Route(AsWritten, Right, Left, SocketPoint(Point(0.0, 160.0), Right), SocketPoint(Point(160.0, 320.0), Left), 20.0)
            == [Point(40.0, 160.0), Point(80.0, 160.0), Point(80.0, 320.0), Point(120.0, 320.0),
                Point(113.0, 315.0), Point(113.0, 325.0), Point(120.0, 320.0)]
    ensures Route(AsWritten, Right, Left, SocketPoint(Point(0.0, 160.0), Right), SocketPoint(Point(200.0, 320.0), Left), 20.0)
            == [Point(40.0, 160.0), Point(100.0, 160.0), Point(100.0, 320.0), Point(160.0, 320.0),
                Point(153.0, 315.0), Point(153.0, 325.0), Point(160.0, 320.0)]
  {
  }

  /** The drag target snaps to the even multiple below its tie. */
  lemma SnapHalfToEven()
    ensures ProposedPosition(Point(200.0, 330.0), SceneRect, GridSnapIncrement) == Point(200.0, 320.0)
  {
    assert (330.0 / 20.0).Floor == 16;
    assert (200.0 / 20.0).Floor == 10;
  }
}
