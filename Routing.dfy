/** The orthogonal wire router of the newer canvas, as functions of the two
    socket points. A route is the source socket point, zero to four
    waypoints, the destination socket point and a three-point arrowhead. */
module Routing {
  import opened Enums
  import opened Geometry

  /** The rule that decides between a Z-bend and an S-detour for opposite
      sockets: the one the router is written with, and its evidently intended
      form, which treats a Top or Left source as the mirror of a Bottom or Right one. */
  datatype ZRule = AsWritten | Intended

  /** The routing families the router chooses between. */
  datatype Family = Straight | ZBend | SBend | CWrap | LBend

  /** `m` with the sign of the way a socket faces along its axis. */
  function OutSign(positive: bool, m: real): real
  {
    if positive then m else -m
  }

  /** The point `m` straight out from `p` in the direction socket `s` faces. */
  function ClearancePoint(s: FaceSocket, p: Point, m: real): Point
  {
    if IsVertical(s) then Point(p.x, p.y + OutSign(s == Bottom, m))
    else Point(p.x + OutSign(s == Right, m), p.y)
  }

  /** How far `w` lies out from `origin` in the direction socket `s` faces
      (negative when it lies behind the face). */
  function Beyond(s: FaceSocket, origin: Point, w: Point): real
  {
    match s
    case Top => origin.y - w.y
    case Bottom => w.y - origin.y
    case Left => origin.x - w.x
    case Right => w.x - origin.x
  }

  /** `w` lies on the line through `origin` along which socket `s` faces. */
  predicate OnFacingLine(s: FaceSocket, origin: Point, w: Point)
  {
    if IsVertical(s) then w.x == origin.x else w.y == origin.y
  }

  /** How far `w` lies to one side of the line along which socket `s` faces. */
  function Across(s: FaceSocket, origin: Point, w: Point): real
  {
    if IsVertical(s) then w.x - origin.x else w.y - origin.y
  }

  /** Opposite sockets already in line: nothing to go around. */
  predicate Aligned(fs: FaceSocket, p: Point, q: Point)
  {
    if IsVertical(fs) then q.x - p.x == 0.0 else q.y - p.y == 0.0
  }

  /** The displacement along the source's axis counts as room for a Z-bend. */
  predicate RoomForZ(rule: ZRule, fs: FaceSocket, dx: real, dy: real, m: real)
  {
    if IsVertical(fs) then
      (dy >= 2.0 * m && fs == Bottom) || (RoomBackward(rule, dy, m) && fs == Top)
    else
      (dx >= 2.0 * m && fs == Right) || (RoomBackward(rule, dx, m) && fs == Left)
  }

  /** The test applied to a Top or Left source. */
  predicate RoomBackward(rule: ZRule, d: real, m: real)
  {
    match rule
    case AsWritten => d < 2.0 * m
    case Intended => d <= -2.0 * m
  }

  /** The branch table of the router: opposite sockets give a straight line,
      a Z-bend or an S-detour, identical sockets a C-wrap, and the remaining
      (perpendicular) pairs an L-bend. */
  function Classify(rule: ZRule, fs: FaceSocket, ts: FaceSocket, p: Point, q: Point, m: real): Family
  {
    if ts.OppositeOf(fs) then
      if Aligned(fs, p, q) then Straight
      else if RoomForZ(rule, fs, q.x - p.x, q.y - p.y, m) then ZBend
      else SBend
    else if ts == fs then CWrap
    else LBend
  }

  /** A Z-bend: a single cross-line half-way between the two sockets. */
  function ZWaypoints(fs: FaceSocket, p: Point, q: Point): seq<Point>
  {
    if IsVertical(fs) then
      var offsetY := (q.y - p.y) / 2.0;
      [Point(p.x, p.y + offsetY), Point(q.x, p.y + offsetY)]
    else
      var offsetX := (q.x - p.x) / 2.0;
      [Point(p.x + offsetX, p.y), Point(p.x + offsetX, q.y)]
  }

  /** An S-detour: out from the source by `m`, across on the half-way line,
      and into the point `m` out from the destination. The destination offset is
      taken along the source's axis, as the router does. */
  function SWaypoints(fs: FaceSocket, ts: FaceSocket, p: Point, q: Point, m: real): seq<Point>
  {
    var vertical := IsVertical(fs);
    var fromX := if vertical then 0.0 else OutSign(fs == Right, m);
    var fromY := if vertical then OutSign(fs == Bottom, m) else 0.0;
    var toX := if vertical then 0.0 else OutSign(ts == Right, m);
    var toY := if vertical then OutSign(ts == Bottom, m) else 0.0;
    var halfX := (q.x - p.x) / 2.0;
    var halfY := (q.y - p.y) / 2.0;
    var first := Point(p.x + fromX, p.y + fromY);
    var last := Point(q.x + toX, q.y + toY);
    if vertical then
      [first, Point(p.x + halfX, p.y + fromY), Point(p.x + halfX, q.y + toY), last]
    else
      [first, Point(p.x + fromX, p.y + halfY), Point(q.x + toX, p.y + halfY), last]
  }

  /** A C-wrap: a line `m` beyond the outermost of the two socket points. */
  function CWaypoints(fs: FaceSocket, ts: FaceSocket, p: Point, q: Point, m: real): seq<Point>
  {
    var dx := q.x - p.x;
    var dy := q.y - p.y;
    if (dy >= 0.0 && fs == Top) || (dy < 0.0 && ts == Top) then
      var offsetY := Min(p.y, q.y) - m;
      [Point(p.x, offsetY), Point(q.x, offsetY)]
    else if (dy <= 0.0 && fs == Bottom) || (dy > 0.0 && ts == Bottom) then
      var offsetY := Max(p.y, q.y) + m;
      [Point(p.x, offsetY), Point(q.x, offsetY)]
    else if (dx >= 0.0 && fs == Left) || (dx < 0.0 && ts == Left) then
      var offsetX := Min(p.x, q.x) - m;
      [Point(offsetX, p.y), Point(offsetX, q.y)]
    else
      var offsetX := Max(p.x, q.x) + m;
      [Point(offsetX, p.y), Point(offsetX, q.y)]
  }

  /** The destination lies ahead of the way the source faces. */
  predicate FacesToward(fs: FaceSocket, dx: real, dy: real)
  {
    (fs == Top && dy < 0.0) || (fs == Bottom && dy > 0.0)
    || (fs == Left && dx < 0.0) || (fs == Right && dx > 0.0)
  }

  /** An L-bend: one inside corner when the source faces the destination,
      otherwise out from the source by `m`, an outside corner, and the point
      `m` out from the destination. */
  function LWaypoints(fs: FaceSocket, ts: FaceSocket, p: Point, q: Point, m: real): seq<Point>
  {
    if FacesToward(fs, q.x - p.x, q.y - p.y) then
      if IsVertical(fs) then [Point(p.x, q.y)] else [Point(q.x, p.y)]
    else
      var first := ClearancePoint(fs, p, m);
      var last := ClearancePoint(ts, q, m);
      var corner := if IsVertical(fs) then Point(last.x, first.y) else Point(first.x, last.y);
      [first, corner, last]
  }

  /** The waypoints between the two socket points. */
  function Waypoints(rule: ZRule, fs: FaceSocket, ts: FaceSocket, p: Point, q: Point, m: real): seq<Point>
  {
    match Classify(rule, fs, ts, p, q, m)
    case Straight => []
    case ZBend => ZWaypoints(fs, p, q)
    case SBend => SWaypoints(fs, ts, p, q, m)
    case CWrap => CWaypoints(fs, ts, p, q, m)
    case LBend => LWaypoints(fs, ts, p, q, m)
  }

  /** Two wing points either side of the destination, then back to its socket point. */
  function ArrowHead(ts: FaceSocket, q: Point): seq<Point>
  {
    match ts
    case Top => [Point(q.x - 5.0, q.y - 7.0), Point(q.x + 5.0, q.y - 7.0), q]
    case Right => [Point(q.x + 7.0, q.y - 5.0), Point(q.x + 7.0, q.y + 5.0), q]
    case Bottom => [Point(q.x + 5.0, q.y + 7.0), Point(q.x - 5.0, q.y + 7.0), q]
    case Left => [Point(q.x - 7.0, q.y - 5.0), Point(q.x - 7.0, q.y + 5.0), q]
  }

  /** The whole polygon the router stores for a wire from socket point `p` to socket point `q`. */
  function Route(rule: ZRule, fs: FaceSocket, ts: FaceSocket, p: Point, q: Point, m: real): seq<Point>
  {
    [p] + Waypoints(rule, fs, ts, p, q, m) + [q] + ArrowHead(ts, q)
  }

  // ---------------------------------------------------------------------
  // Properties of each routing family

  /** The route starts at the source socket point, passes the destination
      socket point just before the arrowhead, and closes the arrowhead on it. */
  lemma RouteEndpoints(rule: ZRule, fs: FaceSocket, ts: FaceSocket, p: Point, q: Point, m: real)
    ensures var w := Waypoints(rule, fs, ts, p, q, m);
            var r := Route(rule, fs, ts, p, q, m);
            && |w| <= 4
            && |r| == |w| + 5
            && r[0] == p
            && r[|w| + 1] == q
            && r[|w| + 2..] == ArrowHead(ts, q)
            && r[|r| - 1] == q
  {
  }

  /** The arrowhead's wings lie 7 out from the destination along its facing
      and 5 to either side of it, and the head ends on the socket point. */
  lemma ArrowHeadShape(ts: FaceSocket, q: Point)
    ensures var a := ArrowHead(ts, q);
            && |a| == 3 && a[2] == q
            && Beyond(ts, q, a[0]) == 7.0 && Beyond(ts, q, a[1]) == 7.0
            && (Across(ts, q, a[0]) == 5.0 || Across(ts, q, a[0]) == -5.0)
            && Across(ts, q, a[1]) == -Across(ts, q, a[0])
  {
  }

  /** Opposite sockets already in line are joined by a single straight segment. */
  lemma StraightWhenAligned(rule: ZRule, fs: FaceSocket, ts: FaceSocket, p: Point, q: Point, m: real)
    requires ts.OppositeOf(fs)
    ensures Waypoints(rule, fs, ts, p, q, m) == [] <==> Aligned(fs, p, q)
  {
  }

  /** The Z-or-S decision as the router is written: for vertical sockets a Z-bend
      exactly when the displacement is at least `2 * m` leaving Bottom or below
      `2 * m` leaving Top, and the mirror for horizontal sockets. */
  lemma ZChoiceAsWritten(fs: FaceSocket, ts: FaceSocket, p: Point, q: Point, m: real)
    requires ts.OppositeOf(fs) && !Aligned(fs, p, q)
    ensures var dx, dy := q.x - p.x, q.y - p.y;
            Classify(AsWritten, fs, ts, p, q, m) == ZBend <==>
              if IsVertical(fs) then (dy >= 2.0 * m && fs == Bottom) || (dy < 2.0 * m && fs == Top)
              else (dx >= 2.0 * m && fs == Right) || (dx < 2.0 * m && fs == Left)
    ensures Classify(AsWritten, fs, ts, p, q, m) in {ZBend, SBend}
  {
  }

  /** The Z-or-S decision as intended: a Z-bend exactly when the destination
      lies at least `2 * m` ahead of the way the source faces. */
  lemma ZChoiceIntended(fs: FaceSocket, ts: FaceSocket, p: Point, q: Point, m: real)
    requires ts.OppositeOf(fs) && !Aligned(fs, p, q)
    ensures Classify(Intended, fs, ts, p, q, m) == ZBend <==> Beyond(fs, p, q) >= 2.0 * m
    ensures Classify(Intended, fs, ts, p, q, m) in {ZBend, SBend}
  {
  }

  /** A Z-bend has two waypoints on the cross-line half-way between the sockets,
      the first in line with the source and the second in line with the destination. */
  lemma ZBendOnHalfwayLine(fs: FaceSocket, p: Point, q: Point)
    ensures var z := ZWaypoints(fs, p, q);
            && |z| == 2
            && (IsVertical(fs) ==>
                  z[0] == Point(p.x, (p.y + q.y) / 2.0) && z[1] == Point(q.x, (p.y + q.y) / 2.0))
            && (!IsVertical(fs) ==>
                  z[0] == Point((p.x + q.x) / 2.0, p.y) && z[1] == Point((p.x + q.x) / 2.0, q.y))
  {
  }

  /** An S-detour between opposite sockets has four waypoints: `m` out from
      the source, two on the half-way line, and `m` out from the destination. */
  lemma SDetourShape(fs: FaceSocket, ts: FaceSocket, p: Point, q: Point, m: real)
    requires ts.OppositeOf(fs)
    ensures var s := SWaypoints(fs, ts, p, q, m);
            && |s| == 4
            && s[0] == ClearancePoint(fs, p, m)
            && s[3] == ClearancePoint(ts, q, m)
            && (IsVertical(fs) ==> s[1].x == s[2].x == (p.x + q.x) / 2.0)
            && (!IsVertical(fs) ==> s[1].y == s[2].y == (p.y + q.y) / 2.0)
  {
  }

  /** A C-wrap between identical sockets has two waypoints on a line `m`
      beyond the further-out of the two socket points, so at least `m` beyond both. */
  lemma CWrapBeyondBoth(s: FaceSocket, p: Point, q: Point, m: real)
    requires m >= 0.0
    ensures var c := CWaypoints(s, s, p, q, m);
            && |c| == 2
            && OnFacingLine(s, p, c[0]) && OnFacingLine(s, q, c[1])
            && Beyond(s, p, c[0]) == Beyond(s, p, c[1]) >= m
            && Beyond(s, q, c[0]) == Beyond(s, q, c[1]) >= m
            && (s == Top ==> c[0].y == Min(p.y, q.y) - m)
            && (s == Bottom ==> c[0].y == Max(p.y, q.y) + m)
            && (s == Left ==> c[0].x == Min(p.x, q.x) - m)
            && (s == Right ==> c[0].x == Max(p.x, q.x) + m)
  {
  }

  /** An L-bend whose source faces the destination turns once, at the
      crossing of the source's line and the destination's; otherwise it has
      three waypoints: `m` out from the source, a corner `m` out from both
      sockets, `m` out from the destination, joined by axis-parallel segments. */
  lemma LBendShape(fs: FaceSocket, ts: FaceSocket, p: Point, q: Point, m: real)
    requires !ts.OppositeOf(fs) && ts != fs
    ensures var l := LWaypoints(fs, ts, p, q, m);
            if FacesToward(fs, q.x - p.x, q.y - p.y) then
              |l| == 1 && OnFacingLine(fs, p, l[0]) && OnFacingLine(ts, q, l[0])
            else
              && |l| == 3
              && l[0] == ClearancePoint(fs, p, m) && l[2] == ClearancePoint(ts, q, m)
              && Beyond(fs, p, l[1]) == m && Beyond(ts, q, l[1]) == m
              && SharesAxis(l[0], l[1]) && SharesAxis(l[1], l[2])
  {
    FacesOppositeIff(fs, ts);
  }

  /** The point `m` out from a socket lies on its facing line, `m` ahead of it. */
  lemma ClearancePointIsAhead(s: FaceSocket, p: Point, m: real)
    ensures OnFacingLine(s, p, ClearancePoint(s, p, m)) && Beyond(s, p, ClearancePoint(s, p, m)) == m
  {
  }

  /** Between the two socket points every segment is horizontal or vertical,
      in every branch and under either rule. */
  lemma {:induction false} RouteRectilinear(rule: ZRule, fs: FaceSocket, ts: FaceSocket, p: Point, q: Point, m: real)
    ensures Rectilinear([p] + Waypoints(rule, fs, ts, p, q, m) + [q])
  {
    var w := Waypoints(rule, fs, ts, p, q, m);
    var s := [p] + w + [q];
    match Classify(rule, fs, ts, p, q, m)
    case Straight =>
      assert s == [p, q];
    case ZBend =>
      assert s == [p, w[0], w[1], q];
    case SBend =>
      assert IsVertical(ts) == IsVertical(fs);
      assert s == [p, w[0], w[1], w[2], w[3], q];
    case CWrap =>
      assert s == [p, w[0], w[1], q];
    case LBend =>
      assert IsVertical(ts) != IsVertical(fs);
      if FacesToward(fs, q.x - p.x, q.y - p.y) {
        assert s == [p, w[0], q];
      } else {
        assert s == [p, w[0], w[1], w[2], q];
      }
  }
}
