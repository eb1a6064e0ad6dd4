// The editor's geometry: the DragPoint bitmask of common/renderables/
// KSLResizable.kt (duplicated in KSLVariable.kt), the rectangle's click points
// and the resize/recentre arithmetic of handleDraggedPoint, grid snapping, the
// queue endpoint drag of common/renderables/KSLQueue.kt, the closest point on
// a segment of common/renderables/KSLResource.kt, and the scene's world/screen
// transform of common/AnimationScene.kt. Doubles are reals.

module Geometry {
  import opened Common

  // ------------------------------------------------------------- DragPoint

  /** KSLResizable.DragPoint: the four edges are single bits, a corner is
      the OR of its two edges, and CENTER is a bit of its own. */
  const TOP_BIT: bv8 := 1
  const RIGHT_BIT: bv8 := 2
  const BOTTOM_BIT: bv8 := 4
  const LEFT_BIT: bv8 := 8
  const CENTER_BIT: bv8 := 16

  datatype DragPoint = Top | Right | Bottom | Left
                     | TopRight | BottomRight | BottomLeft | TopLeft
                     | Center
  {
    function Value(): bv8
    {
      match this
      case Top => TOP_BIT
      case Right => RIGHT_BIT
      case Bottom => BOTTOM_BIT
      case Left => LEFT_BIT
      case TopRight => TOP_BIT | RIGHT_BIT
      case BottomRight => BOTTOM_BIT | RIGHT_BIT
      case BottomLeft => BOTTOM_BIT | LEFT_BIT
      case TopLeft => TOP_BIT | LEFT_BIT
      case Center => CENTER_BIT
    }

    /** `this.value.and(dragPoint.value) > 0`. */
    predicate SharesDirection(p: DragPoint)
    {
      Value() & p.Value() != 0
    }
  }

  /** Every drag point has its own value, so the enum's values identify it. */
  lemma ValuesDistinct(p: DragPoint, q: DragPoint)
    ensures p.Value() == q.Value() <==> p == q
  {
  }

  /** sharesDirection is symmetric, every point shares with itself, and
      CENTER shares with nothing but itself. */
  lemma SharesDirectionFacts(p: DragPoint, q: DragPoint)
    ensures p.SharesDirection(q) <==> q.SharesDirection(p)
    ensures p.SharesDirection(p)
    ensures Center.SharesDirection(q) <==> q == Center
  {
  }

  /** A corner shares a direction exactly with its two edges, itself and
      the two corners next to it. */
  lemma CornerShares(q: DragPoint)
    ensures TopLeft.SharesDirection(q) <==> q in {Top, Left, TopLeft, TopRight, BottomLeft}
  {
  }

  // ------------------------------------------------------------ rectangles

  /** A resizable's geometry: its top-left `position`, `width` and `height`. */
  datatype Rect = Rect(position: Position, width: real, height: real)

  /** Where on the rectangle the point sits along one axis: 0 at the
      near edge, 1 at the far edge, 1/2 in between. */
  function XFactor(p: DragPoint): real
  {
    if p.SharesDirection(Left) then 0.0 else if p.SharesDirection(Right) then 1.0 else 0.5
  }

  function YFactor(p: DragPoint): real
  {
    if p.SharesDirection(Top) then 0.0 else if p.SharesDirection(Bottom) then 1.0 else 0.5
  }

  /** The point of the rectangle a drag point names, read from its bits. */
  function Anchor(r: Rect, p: DragPoint): Position
  {
    Position(r.position.x + r.width * XFactor(p), r.position.y + r.height * YFactor(p))
  }

  /** recalculateClickPoints: the nine click points, in the order the map
      first received them (the order onMouseDown tries them in). */
  function ClickPoints(r: Rect): (cs: seq<(DragPoint, Position)>)
    ensures |cs| == 9
  {
    var p, w, h := r.position, r.width, r.height;
    [ (TopLeft, p),
      (Top, p.Plus(Position(w / 2.0, 0.0))),
      (TopRight, p.Plus(Position(w, 0.0))),
      (Right, p.Plus(Position(w, h / 2.0))),
      (BottomRight, p.Plus(Position(w, h))),
      (Bottom, p.Plus(Position(w / 2.0, h))),
      (BottomLeft, p.Plus(Position(0.0, h))),
      (Left, p.Plus(Position(0.0, h / 2.0))),
      (Center, p.Plus(Position(w / 2.0, h / 2.0))) ]
  }

  /** The place of each drag point in ClickPoints. */
  function ClickIndex(p: DragPoint): (i: nat)
    ensures i < 9
  {
    match p
    case TopLeft => 0 case Top => 1 case TopRight => 2 case Right => 3
    case BottomRight => 4 case Bottom => 5 case BottomLeft => 6 case Left => 7
    case Center => 8
  }

  /** The click points are the corners, the edge midpoints and the centre:
      each drag point appears once, at the place its bits name. */
  lemma ClickPointsAreAnchors(r: Rect, p: DragPoint)
    ensures ClickPoints(r)[ClickIndex(p)] == (p, Anchor(r, p))
    ensures forall i :: 0 <= i < 9 && ClickPoints(r)[i].0 == p ==> i == ClickIndex(p)
  {
    var w, h := r.width, r.height;
    assert w * 0.0 == 0.0 && w * 1.0 == w && w * 0.5 == w / 2.0;
    assert h * 0.0 == 0.0 && h * 1.0 == h && h * 0.5 == h / 2.0;
  }

  // ------------------------------------------------------------------ drag

  /** handleDraggedPoint once a point is selected. CENTER recentres the
      rectangle on `newPos`. Otherwise a TOP (LEFT) point moves that edge to
      `newPos` and sets the size from the drag start so that the far edge
      stays put; a BOTTOM (RIGHT) point changes only the size. */
  function Dragged(r: Rect, point: DragPoint, startSize: Position, pointStart: Position, newPos: Position): (d: Rect)
  {
    if point == Center then
      Rect(Position(newPos.x - r.width / 2.0, newPos.y - r.height / 2.0), r.width, r.height)
    else
      var (y, h) :=
        if point.SharesDirection(Top) then (newPos.y, startSize.y + pointStart.y - newPos.y)
        else if point.SharesDirection(Bottom) then (r.position.y, startSize.y + newPos.y - pointStart.y)
        else (r.position.y, r.height);
      var (x, w) :=
        if point.SharesDirection(Left) then (newPos.x, startSize.x + pointStart.x - newPos.x)
        else if point.SharesDirection(Right) then (r.position.x, startSize.x + newPos.x - pointStart.x)
        else (r.position.x, r.width);
      Rect(Position(x, y), w, h)
  }

  /** CENTER keeps the size and puts the centre of the rectangle on `newPos`. */
  lemma CenterRecentres(r: Rect, startSize: Position, pointStart: Position, newPos: Position)
    ensures var d := Dragged(r, Center, startSize, pointStart, newPos);
      d.width == r.width && d.height == r.height && Anchor(d, Center) == newPos
  {
  }

  /** Right after the press, a drag from point `p` of the start rectangle
      `s` puts that point under the mouse along each axis it moves on, keeps
      the opposite edge where it was, and leaves an axis the point does not
      move on alone. */
  lemma DragFollowsMouse(s: Rect, p: DragPoint, newPos: Position)
    requires p != Center
    ensures var d := Dragged(s, p, Position(s.width, s.height), Anchor(s, p), newPos);
      && (p.SharesDirection(Top) || p.SharesDirection(Bottom) ==> Anchor(d, p).y == newPos.y)
      && (p.SharesDirection(Left) || p.SharesDirection(Right) ==> Anchor(d, p).x == newPos.x)
      && (p.SharesDirection(Top) ==> d.position.y + d.height == s.position.y + s.height)
      && (p.SharesDirection(Bottom) ==> d.position.y == s.position.y)
      && (p.SharesDirection(Left) ==> d.position.x + d.width == s.position.x + s.width)
      && (p.SharesDirection(Right) ==> d.position.x == s.position.x)
      && (!p.SharesDirection(Top) && !p.SharesDirection(Bottom) ==> d.position.y == s.position.y && d.height == s.height)
      && (!p.SharesDirection(Left) && !p.SharesDirection(Right) ==> d.position.x == s.position.x && d.width == s.width)
  {
    var d := Dragged(s, p, Position(s.width, s.height), Anchor(s, p), newPos);
    if p.SharesDirection(Top) {
      assert !p.SharesDirection(Bottom) && YFactor(p) == 0.0;
    } else if p.SharesDirection(Bottom) {
      assert YFactor(p) == 1.0;
      assert Anchor(d, p).y == d.position.y + d.height;
    }
    if p.SharesDirection(Left) {
      assert !p.SharesDirection(Right) && XFactor(p) == 0.0;
    } else if p.SharesDirection(Right) {
      assert XFactor(p) == 1.0;
      assert Anchor(d, p).x == d.position.x + d.width;
    }
  }

  /** Every move of one drag starts over from the press, so where the
      rectangle ends up depends only on the last mouse position. */
  lemma DragPathIndependent(r: Rect, p: DragPoint, startSize: Position, pointStart: Position, a: Position, b: Position)
    ensures Dragged(Dragged(r, p, startSize, pointStart, a), p, startSize, pointStart, b)
         == Dragged(r, p, startSize, pointStart, b)
  {
  }

  /** The drag state of a resizable while a point is held: the point, and
      the position, size and point location at the press. */
  datatype DragState = DragState(point: DragPoint, startPos: Position, startSize: Position, pointStartPos: Position)

  /** `round` (ties to even), as kotlin.math.round does. */
  function Round(x: real): (n: int)
    ensures -0.5 <= x - n as real <= 0.5
  {
    var f := x.Floor;
    if x - f as real < 0.5 then f
    else if x - f as real > 0.5 then f + 1
    else if f % 2 == 0 then f else f + 1
  }

  /** Snapping leaves a grid point where it is. */
  lemma RoundOfInteger(k: int)
    ensures Round(k as real) == k
  {
  }

  function Snapped(p: Position, snapToGrid: bool): (q: Position)
  {
    if snapToGrid then Position(Round(p.x) as real, Round(p.y) as real) else p
  }

  /** Snapping twice is snapping once. */
  lemma SnapIdempotent(p: Position)
    ensures Snapped(Snapped(p, true), true) == Snapped(p, true)
  {
    RoundOfInteger(Round(p.x));
    RoundOfInteger(Round(p.y));
  }

  /** handleDraggedPoint: nothing happens without a selected point; with
      one, the (possibly snapped) position drives `Dragged`. */
  function HandleDraggedPoint(r: Rect, drag: Option<DragState>, newPos: Position, snapToGrid: bool): (d: Rect)
    ensures drag.None? ==> d == r
  {
    match drag
    case None => r
    case Some(s) => Dragged(r, s.point, s.startSize, s.pointStartPos, Snapped(newPos, snapToGrid))
  }

  // ------------------------------------------------------------ hit tests

  /** A click `(x, y)` inside the box reaching `halfWidth` and `halfHeight`
      from its centre `c` (screen units, edges included). */
  predicate Within(x: real, y: real, c: Position, halfWidth: real, halfHeight: real)
  {
    c.x - halfWidth <= x <= c.x + halfWidth && c.y - halfHeight <= y <= c.y + halfHeight
  }

  /** KSLResizable.clickPointSize: a click point is a square a quarter of a
      world unit wide. */
  const CLICK_POINT_SIZE: real := 0.25

  /** onMouseDown's test for one click point: the square of side
      `clickPointSize * screenUnit` whose corner is the point's screen
      position less half that side. */
  predicate ClickHit(p: Position, x: real, y: real, screenUnit: real, offset: Position)
  {
    var size := CLICK_POINT_SIZE * screenUnit;
    var corner := ToScreen(p, screenUnit, offset).Minus(Position(size, size).Times(0.5));
    corner.x <= x <= corner.x + size && corner.y <= y <= corner.y + size
  }

  /** The click square is the box of half side `size / 2` around the
      point's screen position. */
  lemma ClickHitIsCentred(p: Position, x: real, y: real, screenUnit: real, offset: Position)
    ensures var half := CLICK_POINT_SIZE * screenUnit / 2.0;
      ClickHit(p, x, y, screenUnit, offset) <==> Within(x, y, ToScreen(p, screenUnit, offset), half, half)
  {
  }

  /** The index of the first click point, from `from` on, that the click
      hits: the loop of onMouseDown stops at the first hit. */
  function FirstHit(cs: seq<(DragPoint, Position)>, from: nat, x: real, y: real, screenUnit: real, offset: Position): (r: Option<nat>)
    requires from <= |cs|
    ensures r.Some? ==> from <= r.value < |cs| && ClickHit(cs[r.value].1, x, y, screenUnit, offset)
    ensures forall j :: from <= j < |cs| && (r.None? || j < r.value) ==> !ClickHit(cs[j].1, x, y, screenUnit, offset)
    decreases |cs| - from
  {
    if from == |cs| then None
    else if ClickHit(cs[from].1, x, y, screenUnit, offset) then Some(from)
    else FirstHit(cs, from + 1, x, y, screenUnit, offset)
  }

  /** onMouseDown of a queue: the start point, then the end point, then the
      midpoint, each a box reaching `scale * 5` around its screen position;
      the first hit wins. */
  function QueueHit(start: Position, end: Position, scale: real, x: real, y: real, screenUnit: real, offset: Position): QueuePoint
  {
    var size := scale * 5.0;
    if Within(x, y, ToScreen(start, screenUnit, offset), size, size) then StartPoint
    else if Within(x, y, ToScreen(end, screenUnit, offset), size, size) then EndPoint
    else if Within(x, y, ToScreen(Midpoint(start, end), screenUnit, offset), size, size) then BothPoints
    else NoPoint
  }

  // ------------------------------------------------------ queue endpoints

  /** KSLQueue.pointSelected: "START", "END", "BOTH" or "" (none). */
  datatype QueuePoint = NoPoint | StartPoint | EndPoint | BothPoints

  /** onMouseMove of a queue: START and END move their own endpoint to the
      mouse; BOTH moves the pair so that the offset recorded at the press
      sits on either side of the mouse. */
  function QueueDragged(point: QueuePoint, start: Position, end: Position, offset: Position, p: Position): (r: (Position, Position))
    ensures point == NoPoint ==> r == (start, end)
    ensures point == StartPoint ==> r == (p, end)
    ensures point == EndPoint ==> r == (start, p)
  {
    match point
    case NoPoint => (start, end)
    case StartPoint => (p, end)
    case EndPoint => (start, p)
    case BothPoints => (p.Minus(offset), p.Plus(offset))
  }

  /** A BOTH drag, with the offset that onMouseDown records, puts the
      queue's midpoint under the mouse and keeps its direction and length
      (`end - start`) as they were at the press. */
  lemma BothKeepsShape(start0: Position, end0: Position, start: Position, end: Position, p: Position)
    ensures var offset := end0.Minus(Midpoint(start0, end0));
      var (s, e) := QueueDragged(BothPoints, start, end, offset, p);
      Midpoint(s, e) == p && e.Minus(s) == end0.Minus(start0)
  {
  }

  // ------------------------------------------------------ closest point

  function Dot(a: Position, b: Position): real { a.x * b.x + a.y * b.y }

  function SqDist(a: Position, b: Position): real { Dot(a.Minus(b), a.Minus(b)) }

  /** The projection parameter of `point` on the segment, or -1 for a
      degenerate segment (`lenSq == 0`). */
  function LineParam(point: Position, lineStart: Position, lineEnd: Position): real
  {
    var d := lineEnd.Minus(lineStart);
    var lenSq := Dot(d, d);
    if lenSq != 0.0 then Dot(point.Minus(lineStart), d) / lenSq else -1.0
  }

  /** The point at parameter `t` along the segment. */
  function Along(lineStart: Position, lineEnd: Position, t: real): Position
  {
    lineStart.Plus(lineEnd.Minus(lineStart).Times(t))
  }

  /** KSLResource.getClosestPointOnLine (distancePointToLine picks its point
      with the same clamp): the start for a parameter below 0, the end above
      1, else the projection. */
  function ClosestPointOnLine(point: Position, lineStart: Position, lineEnd: Position): (r: Position)
  {
    var t := LineParam(point, lineStart, lineEnd);
    if t < 0.0 then lineStart
    else if t > 1.0 then lineEnd
    else Position(lineStart.x + t * (lineEnd.x - lineStart.x), lineStart.y + t * (lineEnd.y - lineStart.y))
  }

  /** The clamped parameter of the closest point. */
  function ClosestParam(point: Position, lineStart: Position, lineEnd: Position): (t: real)
    ensures 0.0 <= t <= 1.0
  {
    var t := LineParam(point, lineStart, lineEnd);
    if t < 0.0 then 0.0 else if t > 1.0 then 1.0 else t
  }

  /** The result lies on the segment; a degenerate segment gives its start. */
  lemma ClosestPointOnSegment(point: Position, lineStart: Position, lineEnd: Position)
    ensures ClosestPointOnLine(point, lineStart, lineEnd) == Along(lineStart, lineEnd, ClosestParam(point, lineStart, lineEnd))
    ensures lineStart == lineEnd ==> ClosestPointOnLine(point, lineStart, lineEnd) == lineStart
  {
    var d := lineEnd.Minus(lineStart);
    assert d.Times(0.0) == Position(0.0, 0.0);
  }

  /** No point of the segment is nearer to `point` than the result. */
  lemma ClosestPointIsClosest(point: Position, lineStart: Position, lineEnd: Position, t: real)
    requires 0.0 <= t <= 1.0
    ensures SqDist(point, ClosestPointOnLine(point, lineStart, lineEnd)) <= SqDist(point, Along(lineStart, lineEnd, t))
  {
    ClosestPointOnSegment(point, lineStart, lineEnd);
    if lineStart == lineEnd {
      AlongDegenerate(lineStart, lineEnd, t);
    } else {
      ProperSegmentClosest(point, lineStart, lineEnd, t);
    }
  }

  lemma ProperSegmentClosest(point: Position, lineStart: Position, lineEnd: Position, t: real)
    requires 0.0 <= t <= 1.0 && lineStart != lineEnd
    ensures SqDist(point, Along(lineStart, lineEnd, ClosestParam(point, lineStart, lineEnd))) <= SqDist(point, Along(lineStart, lineEnd, t))
  {
    var a := point.Minus(lineStart);
    var d := lineEnd.Minus(lineStart);
    DotSelfPositive(d);
    var c := ClosestParam(point, lineStart, lineEnd);
    SqDistAlong(point, lineStart, lineEnd, t);
    SqDistAlong(point, lineStart, lineEnd, c);
    assert LineParam(point, lineStart, lineEnd) == Dot(a, d) / Dot(d, d);
    ClampedMinimum(Dot(a, a), Dot(a, d), Dot(d, d), t);
  }

  lemma DotSelfPositive(d: Position)
    requires d != Position(0.0, 0.0)
    ensures Dot(d, d) > 0.0
  {
    var p := SquareOf(d.x);
    var q := SquareOf(d.y);
    assert Dot(d, d) == p + q;
  }

  /** The square of `a`, named so that its sign facts attach to one term. */
  lemma SquareOf(a: real) returns (s: real)
    ensures s == a * a && s >= 0.0 && (a != 0.0 ==> s > 0.0)
  {
    if a < 0.0 {
      var b := -a;
      s := PositiveProduct(b, b);
      assert s == a * a;
    } else if a > 0.0 {
      s := PositiveProduct(a, a);
    } else {
      s := a * a;
    }
  }

  lemma PositiveProduct(a: real, b: real) returns (p: real)
    requires a > 0.0 && b > 0.0
    ensures p == a * b && p > 0.0
  {
    p := a * b;
  }

  lemma AlongDegenerate(lineStart: Position, lineEnd: Position, t: real)
    requires lineStart == lineEnd
    ensures Along(lineStart, lineEnd, t) == lineStart
  {
    assert lineEnd.Minus(lineStart) == Position(0.0, 0.0);
  }

  /** The quadratic `aa - 2 t dot + t^2 lenSq` (lenSq > 0) is smallest on
      [0, 1] at the clamped vertex `dot / lenSq`. */
  lemma ClampedMinimum(aa: real, dot: real, lenSq: real, t: real)
    requires lenSq > 0.0 && 0.0 <= t <= 1.0
    ensures var p := dot / lenSq;
      var c := if p < 0.0 then 0.0 else if p > 1.0 then 1.0 else p;
      aa - 2.0 * c * dot + c * c * lenSq <= aa - 2.0 * t * dot + t * t * lenSq
  {
    var p := dot / lenSq;
    var c := if p < 0.0 then 0.0 else if p > 1.0 then 1.0 else p;
    assert dot == p * lenSq;
    // f(t) - f(c) == (t - c) * (lenSq * (t + c) - 2 * dot)
    assert (aa - 2.0 * t * dot + t * t * lenSq) - (aa - 2.0 * c * dot + c * c * lenSq)
        == (t - c) * (lenSq * (t + c) - 2.0 * dot);
    if p < 0.0 {
      MulNeg(p, lenSq);
      MulNonNeg(lenSq, t);
      MulNonNeg(t, lenSq * t - 2.0 * dot);
    } else if p > 1.0 {
      MulPos(p - 1.0, lenSq);
      assert dot - lenSq == (p - 1.0) * lenSq;
      MulNonNeg(lenSq, 1.0 - t);
      MulNonNeg(1.0 - t, 2.0 * dot - lenSq * (t + 1.0));
      assert (t - c) * (lenSq * (t + c) - 2.0 * dot) == (1.0 - t) * (2.0 * dot - lenSq * (t + 1.0));
    } else {
      assert (t - c) * (lenSq * (t + c) - 2.0 * dot) == lenSq * ((t - c) * (t - c));
      MulNonNeg(lenSq, (t - c) * (t - c));
    }
  }

  /** The squared distance to the point at parameter `t`, expanded. */
  lemma SqDistAlong(point: Position, lineStart: Position, lineEnd: Position, t: real)
    ensures var a, d := point.Minus(lineStart), lineEnd.Minus(lineStart);
      SqDist(point, Along(lineStart, lineEnd, t)) == Dot(a, a) - 2.0 * t * Dot(a, d) + t * t * Dot(d, d)
  {
    var a, d := point.Minus(lineStart), lineEnd.Minus(lineStart);
    var q := point.Minus(Along(lineStart, lineEnd, t));
    assert q == Position(a.x - t * d.x, a.y - t * d.y);
    assert (a.x - t * d.x) * (a.x - t * d.x) == a.x * a.x - 2.0 * t * (a.x * d.x) + t * t * (d.x * d.x);
    assert (a.y - t * d.y) * (a.y - t * d.y) == a.y * a.y - 2.0 * t * (a.y * d.y) + t * t * (d.y * d.y);
  }

  lemma MulNonNeg(a: real, b: real)
    requires a >= 0.0 && b >= 0.0
    ensures a * b >= 0.0
  {
  }

  lemma MulPos(a: real, b: real)
    requires a > 0.0 && b > 0.0
    ensures a * b > 0.0
  {
  }

  lemma MulNeg(a: real, b: real)
    requires a < 0.0 && b > 0.0
    ensures a * b < 0.0
  {
  }

  // ---------------------------------------------------- world and screen

  /** AnimationScene.worldToScreen: `position * screenUnit + offset`. */
  function ToScreen(p: Position, screenUnit: real, offset: Position): Position
  {
    p.Times(screenUnit).Plus(offset)
  }

  /** AnimationScene.screenToWorld: `(position - offset) * (1 / screenUnit)`;
      with `screenUnit` still 0 (before `resize`) the source divides by zero. */
  function ToWorld(p: Position, screenUnit: real, offset: Position): Position
    requires screenUnit != 0.0
  {
    p.Minus(offset).Times(1.0 / screenUnit)
  }

  /** A resource grabbed at `press` and dragged to `release` with the offset
      onMouseDown records moves by the mouse's displacement, in world units;
      released where it was pressed, it is back at `p`. */
  lemma GrabbedDrag(p: Position, press: Position, release: Position, screenUnit: real, offset: Position)
    requires screenUnit != 0.0
    ensures var grip := press.Minus(ToScreen(p, screenUnit, offset));
      ToWorld(release.Minus(grip), screenUnit, offset) == p.Plus(release.Minus(press).Times(1.0 / screenUnit))
  {
    var k := 1.0 / screenUnit;
    assert screenUnit * k == 1.0;
    assert p.x * screenUnit * k == p.x * (screenUnit * k);
    assert p.y * screenUnit * k == p.y * (screenUnit * k);
    assert p.x * screenUnit * k == p.x;
    assert p.y * screenUnit * k == p.y;
    assert (release.x - press.x + p.x * screenUnit) * k == (release.x - press.x) * k + p.x * screenUnit * k;
    assert (release.y - press.y + p.y * screenUnit) * k == (release.y - press.y) * k + p.y * screenUnit * k;
  }

  /** The two transforms are inverse to each other. */
  lemma ScreenRoundTrip(p: Position, screenUnit: real, offset: Position)
    requires screenUnit != 0.0
    ensures ToWorld(ToScreen(p, screenUnit, offset), screenUnit, offset) == p
    ensures ToScreen(ToWorld(p, screenUnit, offset), screenUnit, offset) == p
  {
    assert p.x * screenUnit * (1.0 / screenUnit) == p.x;
    assert p.y * screenUnit * (1.0 / screenUnit) == p.y;
    assert (p.x - offset.x) * (1.0 / screenUnit) * screenUnit == p.x - offset.x;
    assert (p.y - offset.y) * (1.0 / screenUnit) * screenUnit == p.y - offset.y;
  }
}
