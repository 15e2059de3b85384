/** The router of the older canvas, as a function of the two component
    centres. It works from the displacement between the centres and fills in
    waypoints only for a wire leaving a Right socket towards a component below
    and to the right; every other wire is drawn as one segment from socket to
    socket, and no arrowhead is added. */
module LegacyRouting {
  import opened Enums
  import opened Geometry
  import opened ComponentGeometry
  import Routing

  /** The fixed distance the old router keeps from a socket it wraps around. */
  const Clearance: real := 20.0

  /** The wire leaves Right towards a component below and to the right: the
      only case the old router fills in. */
  predicate RightwardDownward(fromCentre: Point, fs: FaceSocket, toCentre: Point)
  {
    toCentre.x - fromCentre.x > 0.0 && toCentre.y - fromCentre.y > 0.0 && fs == Right
  }

  /** The vertical line half-way across the gap between the source's right
      edge and the destination's left edge, where the old router turns. */
  function MidlineX(fromCentre: Point, toCentre: Point): real
  {
    SocketPoint(fromCentre, Right).x + (toCentre.x - fromCentre.x - BoxWidth) / 2.0
  }

  function Waypoints(fromCentre: Point, fs: FaceSocket, toCentre: Point, ts: FaceSocket): seq<Point>
  {
    var p := SocketPoint(fromCentre, fs);
    var q := SocketPoint(toCentre, ts);
    if RightwardDownward(fromCentre, fs, toCentre) then
      var mid := MidlineX(fromCentre, toCentre);
      if ts == Top then
        [Point(q.x, p.y)]
      else if ts == Right then
        [Point(q.x + Clearance, p.y), Point(q.x + Clearance, q.y)]
      else if ts == Bottom then
        [Point(mid, p.y), Point(mid, q.y + Clearance), Point(q.x, q.y + Clearance)]
      else
        [Point(mid, p.y), Point(mid, q.y)]
    else
      []
  }

  /** The polygon the old router stores: source socket point, waypoints,
      destination socket point. */
  function Route(fromCentre: Point, fs: FaceSocket, toCentre: Point, ts: FaceSocket): seq<Point>
  {
    [SocketPoint(fromCentre, fs)] + Waypoints(fromCentre, fs, toCentre, ts) + [SocketPoint(toCentre, ts)]
  }

  /** A route starts at the source socket, ends at the destination socket and
      has no waypoints exactly when the wire is not a rightward-downward wire
      from a Right socket. */
  lemma RouteEndpoints(fromCentre: Point, fs: FaceSocket, toCentre: Point, ts: FaceSocket)
    ensures var r := Route(fromCentre, fs, toCentre, ts);
            && 2 <= |r| <= 5
            && r[0] == SocketPoint(fromCentre, fs)
            && r[|r| - 1] == SocketPoint(toCentre, ts)
            && (|r| == 2 <==> !RightwardDownward(fromCentre, fs, toCentre))
  {
  }

  /** Every segment of an old route is horizontal or vertical exactly when the
      wire is rightward-downward from a Right socket, or its two socket points
      already share a coordinate. */
  lemma {:induction false} RouteRectilinearIff(fromCentre: Point, fs: FaceSocket, toCentre: Point, ts: FaceSocket)
    ensures var p := SocketPoint(fromCentre, fs);
            var q := SocketPoint(toCentre, ts);
            Rectilinear(Route(fromCentre, fs, toCentre, ts))
            <==> RightwardDownward(fromCentre, fs, toCentre) || SharesAxis(p, q)
  {
    var p := SocketPoint(fromCentre, fs);
    var q := SocketPoint(toCentre, ts);
    var w := Waypoints(fromCentre, fs, toCentre, ts);
    var r := Route(fromCentre, fs, toCentre, ts);
    if RightwardDownward(fromCentre, fs, toCentre) {
      if |w| == 1 {
        assert r == [p, w[0], q];
      } else if |w| == 2 {
        assert r == [p, w[0], w[1], q];
      } else {
        assert r == [p, w[0], w[1], w[2], q];
      }
      assert Rectilinear(r) by {
        forall i | 0 <= i < |r| - 1 ensures SegmentSharesAxis(r, i) {
        }
      }
    } else {
      assert r == [p, q];
      assert Rectilinear(r) <==> SegmentSharesAxis(r, 0);
    }
  }

  /** Towards a Bottom or Left socket the old router turns on the line
      half-way across the gap between the two boxes. */
  lemma MidlineInGap(fromCentre: Point, toCentre: Point, ts: FaceSocket)
    requires RightwardDownward(fromCentre, Right, toCentre) && (ts == Bottom || ts == Left)
    ensures var w := Waypoints(fromCentre, Right, toCentre, ts);
            && |w| >= 2 && w[0].x == w[1].x
            && w[0].x == (BoxRect(fromCentre).Right() + BoxRect(toCentre).left) / 2.0
            && w[0].y == SocketPoint(fromCentre, Right).y
  {
  }

  /** Where the two routers overlap, on rightward-downward wires from a Right
      socket and a clearance of 20: the old router's waypoints agree with the
      newer router's Z-bend into a Left socket once the gap holds two
      clearances, with its inside L-bend into a Top socket once the Top socket
      lies to the right of the Right one, and with its C-wrap into a Right
      socket. Into a Bottom socket they differ: the old router arrives from 20
      below the socket, the newer one from a corner behind the destination's
      bottom face. */
  lemma {:induction false} AgreesWithNewerRouter(rule: Routing.ZRule, fromCentre: Point, toCentre: Point, ts: FaceSocket)
    requires RightwardDownward(fromCentre, Right, toCentre)
    ensures var p := SocketPoint(fromCentre, Right);
            var q := SocketPoint(toCentre, ts);
            var legacy := Waypoints(fromCentre, Right, toCentre, ts);
            var newer := Routing.Waypoints(rule, Right, ts, p, q, Clearance);
            && (ts == Left && toCentre.x - fromCentre.x >= BoxWidth + 2.0 * Clearance ==> newer == legacy)
            && (ts == Top && toCentre.x - fromCentre.x > BoxWidth / 2.0 ==> newer == legacy)
            && (ts == Right ==> newer == legacy)
            && (ts == Bottom ==>
                  && Routing.OnFacingLine(Bottom, q, legacy[|legacy| - 1])
                  && Routing.Beyond(Bottom, q, legacy[|legacy| - 1]) == Clearance
                  && (toCentre.x - fromCentre.x > BoxWidth / 2.0 ==>
                        Routing.Beyond(Bottom, q, newer[|newer| - 1]) < 0.0))
  {
    var p := SocketPoint(fromCentre, Right);
    var q := SocketPoint(toCentre, ts);
    if ts == Left {
      if toCentre.x - fromCentre.x >= BoxWidth + 2.0 * Clearance {
        assert Routing.Classify(rule, Right, ts, p, q, Clearance) == Routing.ZBend;
      }
    } else if ts == Top || ts == Bottom {
      assert Routing.Classify(rule, Right, ts, p, q, Clearance) == Routing.LBend;
    } else {
      assert Routing.Classify(rule, Right, ts, p, q, Clearance) == Routing.CWrap;
    }
  }
}
