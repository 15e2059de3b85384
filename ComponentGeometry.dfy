/** The geometry of a component box: its rectangle, the points of its four
    sockets, and how a proposed new position is kept inside the scene and
    snapped to the grid. */
module ComponentGeometry {
  import opened Enums
  import opened Geometry

  /** Every component is an 80 by 80 box. */
  const BoxWidth: real := 80.0
  const BoxHeight: real := 80.0

  /** The scene rectangle and snap increment the canvas scene sets up. */
  const SceneRect: Rect := Rect(-5000.0, -500.0, 10000.0, 10000.0)
  const GridSnapIncrement: real := 20.0

  /** The box rectangle of a component whose position is `centre`. */
  function BoxRect(centre: Point): (r: Rect)
    ensures r.width == BoxWidth && r.height == BoxHeight
    ensures r.Center() == centre
  {
    Rect(centre.x - BoxWidth / 2.0, centre.y - BoxHeight / 2.0, BoxWidth, BoxHeight)
  }

  /** The scene point of a socket: the midpoint of the face it names. */
  function SocketPoint(centre: Point, side: FaceSocket): (p: Point)
    ensures side == Top ==> p == Point(centre.x, centre.y - BoxHeight / 2.0)
    ensures side == Bottom ==> p == Point(centre.x, centre.y + BoxHeight / 2.0)
    ensures side == Left ==> p == Point(centre.x - BoxWidth / 2.0, centre.y)
    ensures side == Right ==> p == Point(centre.x + BoxWidth / 2.0, centre.y)
  {
    var r := BoxRect(centre);
    match side
    case Top => Point(r.Center().x, r.top)
    case Bottom => Point(r.Center().x, r.Bottom())
    case Left => Point(r.left, r.Center().y)
    case Right => Point(r.Right(), r.Center().y)
  }

  /** Each socket point lies on the box rectangle, at the middle of the face
      it names. */
  lemma SocketPointOnBoxEdge(centre: Point, side: FaceSocket)
    ensures var r, s := BoxRect(centre), SocketPoint(centre, side);
            && r.Contains(s)
            && (side == Top ==> s.y == r.top && s.x == r.left + r.width / 2.0)
            && (side == Bottom ==> s.y == r.Bottom() && s.x == r.left + r.width / 2.0)
            && (side == Left ==> s.x == r.left && s.y == r.top + r.height / 2.0)
            && (side == Right ==> s.x == r.Right() && s.y == r.top + r.height / 2.0)
  {
  }

  /** The Top and Bottom sockets share x and lie one box height apart; the Left
      and Right sockets share y and lie one box width apart. */
  lemma OppositeSocketPoints(centre: Point)
    ensures SocketPoint(centre, Top).x == SocketPoint(centre, Bottom).x
    ensures SocketPoint(centre, Bottom).y - SocketPoint(centre, Top).y == BoxRect(centre).height
    ensures SocketPoint(centre, Left).y == SocketPoint(centre, Right).y
    ensures SocketPoint(centre, Right).x - SocketPoint(centre, Left).x == BoxRect(centre).width
  {
  }

  /** `v` limited to the interval from `lo` to `hi`. */
  function Clamp(v: real, lo: real, hi: real): (r: real)
    ensures lo <= hi ==> lo <= r <= hi
    ensures lo <= v <= hi ==> r == v
    ensures v < lo && lo <= hi ==> r == lo
    ensures hi < v ==> r == hi
  {
    Min(hi, Max(v, lo))
  }

  /** Python's `round`: the nearest integer, ties going to the even one. */
  function RoundHalfEven(r: real): (k: int)
    ensures -0.5 <= r - k as real <= 0.5
    ensures (r - k as real == 0.5 || r - k as real == -0.5) ==> k % 2 == 0
  {
    var f := r.Floor;
    var frac := r - f as real;
    if frac < 0.5 then f
    else if frac > 0.5 then f + 1
    else if f % 2 == 0 then f
    else f + 1
  }

  /** `v` is a whole multiple of the increment `g`. */
  predicate OnGrid(v: real, g: real)
    requires g > 0.0
  {
    (v / g).Floor as real == v / g
  }

  /** `k * g` is on the grid of increment `g`. */
  lemma MultipleOnGrid(k: int, g: real)
    requires g > 0.0
    ensures OnGrid(k as real * g, g)
  {
    assert (k as real * g) / g == k as real;
  }

  /** `v` snapped to the nearest multiple of `g`, ties to the even multiple. */
  function Snap(v: real, g: real): (s: real)
    requires g > 0.0
    ensures OnGrid(s, g)
    ensures -g / 2.0 <= s - v <= g / 2.0
  {
    var k := RoundHalfEven(v / g);
    MultipleOnGrid(k, g);
    var d := k as real - v / g;
    assert k as real * g - v == d * g by {
      assert (v / g) * g == v;
    }
    HalfBound(d, g);
    k as real * g
  }

  lemma HalfBound(d: real, g: real)
    requires g > 0.0 && -0.5 <= d <= 0.5
    ensures -g / 2.0 <= d * g <= g / 2.0
  {
    if d >= 0.0 {
      assert d * g <= 0.5 * g;
    } else {
      assert d * g >= -0.5 * g;
    }
  }

  /** A value already on the grid is left where it is by snapping. */
  lemma {:induction false} SnapKeepsAligned(v: real, g: real)
    requires g > 0.0 && OnGrid(v, g)
    ensures Snap(v, g) == v
  {
    var k := (v / g).Floor;
    assert RoundHalfEven(v / g) == k;
    assert k as real * g == v by {
      assert (v / g) * g == v;
    }
  }

  /** Snapping a value between two grid lines never leaves the interval they bound. */
  lemma {:induction false} SnapStaysBetweenGridLines(v: real, lo: real, hi: real, g: real)
    requires g > 0.0 && OnGrid(lo, g) && OnGrid(hi, g) && lo <= v <= hi
    ensures lo <= Snap(v, g) <= hi
  {
    var a, b := (lo / g).Floor, (hi / g).Floor;
    var k := RoundHalfEven(v / g);
    assert a as real <= v / g <= b as real by {
      DivMonotone(lo, v, g);
      DivMonotone(v, hi, g);
    }
    assert a <= k;
    assert k <= b by {
      var f := (v / g).Floor;
      assert f <= b;
      if f == b {
        assert v / g == b as real;
      }
    }
    MulMonotone(a as real, k as real, g);
    MulMonotone(k as real, b as real, g);
    assert a as real * g == lo && b as real * g == hi by {
      assert (lo / g) * g == lo;
      assert (hi / g) * g == hi;
    }
  }

  lemma DivMonotone(u: real, v: real, g: real)
    requires g > 0.0 && u <= v
    ensures u / g <= v / g
  {
    assert v / g - u / g == (v - u) / g;
  }

  lemma MulMonotone(a: real, b: real, g: real)
    requires g > 0.0 && a <= b
    ensures a * g <= b * g
  {
    assert b * g - a * g == (b - a) * g;
  }

  /** The position a component is moved to when dragged to `newPos`: kept inside
      the scene rectangle, then snapped to the grid. */
  function ProposedPosition(newPos: Point, scene: Rect, g: real): (p: Point)
    requires g > 0.0
    ensures OnGrid(p.x, g) && OnGrid(p.y, g)
  {
    var kept :=
      if scene.Contains(newPos) then newPos
      else Point(Clamp(newPos.x, scene.left, scene.Right()), Clamp(newPos.y, scene.top, scene.Bottom()));
    Point(Snap(kept.x, g), Snap(kept.y, g))
  }

  /** A scene rectangle whose edges lie on grid lines keeps every moved component inside it. */
  lemma {:induction false} ProposedPositionInScene(newPos: Point, scene: Rect, g: real)
    requires g > 0.0 && scene.width >= 0.0 && scene.height >= 0.0
    requires OnGrid(scene.left, g) && OnGrid(scene.Right(), g)
    requires OnGrid(scene.top, g) && OnGrid(scene.Bottom(), g)
    ensures scene.Contains(ProposedPosition(newPos, scene, g))
  {
    var kept :=
      if scene.Contains(newPos) then newPos
      else Point(Clamp(newPos.x, scene.left, scene.Right()), Clamp(newPos.y, scene.top, scene.Bottom()));
    SnapStaysBetweenGridLines(kept.x, scene.left, scene.Right(), g);
    SnapStaysBetweenGridLines(kept.y, scene.top, scene.Bottom(), g);
  }

  /** A component dropped on a grid point inside the scene stays exactly there. */
  lemma {:induction false} ProposedPositionKeepsGridPoint(newPos: Point, scene: Rect, g: real)
    requires g > 0.0 && scene.Contains(newPos) && OnGrid(newPos.x, g) && OnGrid(newPos.y, g)
    ensures ProposedPosition(newPos, scene, g) == newPos
  {
    SnapKeepsAligned(newPos.x, g);
    SnapKeepsAligned(newPos.y, g);
  }

  /** The scene the canvas sets up has its edges on the snap grid. */
  lemma {:induction false} SceneRectOnGrid()
    ensures OnGrid(SceneRect.left, GridSnapIncrement) && OnGrid(SceneRect.Right(), GridSnapIncrement)
    ensures OnGrid(SceneRect.top, GridSnapIncrement) && OnGrid(SceneRect.Bottom(), GridSnapIncrement)
  {
    MultipleOnGrid(-250, GridSnapIncrement);
    MultipleOnGrid(250, GridSnapIncrement);
    MultipleOnGrid(-25, GridSnapIncrement);
    MultipleOnGrid(475, GridSnapIncrement);
  }
}
