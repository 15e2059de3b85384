/** Properties of whole routes: clearance from both sockets, non-degenerate
    segments, mirror symmetry, and where the Z-or-S rule as written departs
    from its intended form. */
module RouteProperties {
  import opened Enums
  import opened Geometry
  import opened ComponentGeometry
  import opened Routing

  /** Under the intended rule every route that turns leaves its source along
      the source's facing line, ahead of the source; apart from an L-bend whose
      source already faces the destination, it goes at least `m` ahead of the source
      before turning and arrives from at least `m` ahead of the destination. */
  lemma {:induction false} ClearanceFromBothSockets(fs: FaceSocket, ts: FaceSocket, p: Point, q: Point, m: real)
    requires m > 0.0
    ensures var w := Waypoints(Intended, fs, ts, p, q, m);
            var family := Classify(Intended, fs, ts, p, q, m);
            && (family != Straight ==> |w| > 0 && OnFacingLine(fs, p, w[0]) && Beyond(fs, p, w[0]) > 0.0)
            && (family != Straight && !(family == LBend && FacesToward(fs, q.x - p.x, q.y - p.y)) ==>
                  && Beyond(fs, p, w[0]) >= m
                  && OnFacingLine(ts, q, w[|w| - 1]) && Beyond(ts, q, w[|w| - 1]) >= m)
  {
    var w := Waypoints(Intended, fs, ts, p, q, m);
    match Classify(Intended, fs, ts, p, q, m)
    case Straight =>
    case ZBend =>
      ZChoiceIntended(fs, ts, p, q, m);
      ZBendOnHalfwayLine(fs, p, q);
    case SBend =>
      SDetourShape(fs, ts, p, q, m);
      ClearancePointIsAhead(fs, p, m);
      ClearancePointIsAhead(ts, q, m);
    case CWrap =>
      CWrapBeyondBoth(fs, p, q, m);
    case LBend =>
      LBendShape(fs, ts, p, q, m);
      ClearancePointIsAhead(fs, p, m);
      ClearancePointIsAhead(ts, q, m);
  }

  /** Under the intended rule a route between opposite sockets that are not in
      line has no zero-length segment: each segment changes exactly one coordinate. */
  lemma {:induction false} OppositeRouteHasNoZeroSegment(fs: FaceSocket, ts: FaceSocket, p: Point, q: Point, m: real)
    requires m > 0.0 && ts.OppositeOf(fs) && !Aligned(fs, p, q)
    ensures ProperlyRectilinear([p] + Waypoints(Intended, fs, ts, p, q, m) + [q])
  {
    var w := Waypoints(Intended, fs, ts, p, q, m);
    var s := [p] + w + [q];
    ZChoiceIntended(fs, ts, p, q, m);
    if Classify(Intended, fs, ts, p, q, m) == ZBend {
      ZBendOnHalfwayLine(fs, p, q);
      assert s == [p, w[0], w[1], q];
    } else {
      SDetourShape(fs, ts, p, q, m);
      assert s == [p, w[0], w[1], w[2], w[3], q];
    }
  }

  /** Under the intended rule, routing the other way round between opposite or
      identical sockets visits the same waypoints in reverse order. */
  lemma {:induction false} SwappedRouteIsMirror(fs: FaceSocket, ts: FaceSocket, p: Point, q: Point, m: real)
    requires ts.OppositeOf(fs) || ts == fs
    ensures Waypoints(Intended, ts, fs, q, p, m) == Reverse(Waypoints(Intended, fs, ts, p, q, m))
  {
    var w := Waypoints(Intended, fs, ts, p, q, m);
    var v := Waypoints(Intended, ts, fs, q, p, m);
    OppositeSymmetric(fs, ts);
    assert Classify(Intended, ts, fs, q, p, m) == Classify(Intended, fs, ts, p, q, m) by {
      if ts.OppositeOf(fs) {
        assert Beyond(ts, q, p) == Beyond(fs, p, q);
        if !Aligned(fs, p, q) {
          ZChoiceIntended(fs, ts, p, q, m);
          ZChoiceIntended(ts, fs, q, p, m);
        }
      }
    }
    match Classify(Intended, fs, ts, p, q, m)
    case Straight =>
    case ZBend =>
      assert v == [w[1], w[0]];
    case SBend =>
      assert v == [w[3], w[2], w[1], w[0]];
    case CWrap =>
      assert v == [w[1], w[0]];
    case LBend =>
  }

  /** The rule as written and the intended rule disagree exactly for a Top or
      Left source whose displacement along its axis lies strictly between
      `-2 * m` and `2 * m`; everywhere else the two routers coincide. */
  lemma RulesDisagreeOnlyInWindow(fs: FaceSocket, ts: FaceSocket, p: Point, q: Point, m: real)
    requires m > 0.0
    ensures var dx, dy := q.x - p.x, q.y - p.y;
            Waypoints(AsWritten, fs, ts, p, q, m) != Waypoints(Intended, fs, ts, p, q, m)
            <==>
            ts.OppositeOf(fs) && !Aligned(fs, p, q)
            && ((fs == Top && -2.0 * m < dy < 2.0 * m) || (fs == Left && -2.0 * m < dx < 2.0 * m))
  {
    var dx, dy := q.x - p.x, q.y - p.y;
    if ts.OppositeOf(fs) && !Aligned(fs, p, q)
       && ((fs == Top && -2.0 * m < dy < 2.0 * m) || (fs == Left && -2.0 * m < dx < 2.0 * m))
    {
      assert Classify(AsWritten, fs, ts, p, q, m) == ZBend;
      assert Classify(Intended, fs, ts, p, q, m) == SBend;
      assert |ZWaypoints(fs, p, q)| != |SWaypoints(fs, ts, p, q, m)|;
    }
  }

  /** The departure, on concrete boxes: a wire from the Top of the box at
      (0, 0) to the Bottom of the box at (200, -60), with clearance 20. The
      destination socket lies 20 below the source socket, so the source is
      facing away from it; as written, the router still draws a Z-bend whose
      first waypoint lies inside the source box, behind the face it leaves by,
      and routing the same pair the other way round gives a different shape.
      The intended rule draws an S-detour that leaves upward by 20. */
  lemma ZBendIntoSourceBox()
    ensures var p := SocketPoint(Point(0.0, 0.0), Top);
            var q := SocketPoint(Point(200.0, -60.0), Bottom);
            var w := Waypoints(AsWritten, Top, Bottom, p, q, 20.0);
            && p == Point(0.0, -40.0) && q == Point(200.0, -20.0)
            && Classify(AsWritten, Top, Bottom, p, q, 20.0) == ZBend
            && w[0] == Point(0.0, -30.0)
            && Beyond(Top, p, w[0]) < 0.0
            && BoxRect(Point(0.0, 0.0)).Contains(w[0]) && w[0] != p
            && Classify(AsWritten, Bottom, Top, q, p, 20.0) == SBend
            && Waypoints(AsWritten, Bottom, Top, q, p, 20.0) != Reverse(w)
            && Waypoints(Intended, Top, Bottom, p, q, 20.0)[0] == Point(0.0, -60.0)
  {
  }

  /** The same departure with the two sockets level: as written the first
      waypoint is the source socket point itself, so the route opens with a
      zero-length segment. */
  lemma ZBendZeroSegment()
    ensures var p := SocketPoint(Point(0.0, 0.0), Top);
            var q := SocketPoint(Point(200.0, -80.0), Bottom);
            var s := [p] + Waypoints(AsWritten, Top, Bottom, p, q, 20.0) + [q];
            |s| == 4 && s[1] == p && !SegmentIsProper(s, 0)
  {
  }
}
