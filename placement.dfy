/** Where the escaped "No" button is put: a random coordinate clamped so that
    the button stays inside the viewport with a margin. */
module Placement {

  import opened Numbers

  /** Margin kept between the button and the viewport's edges, in pixels. */
  const Margin: real := 10.0

  /** A draw of the page's random source: a number in [0, 1). */
  type Draw = r: real | 0.0 <= r < 1.0

  /** The layout measured when a position is picked: the viewport's inner size
      and the rendered size of the "No" button. */
  datatype Measure = Measure(innerWidth: real, innerHeight: real, buttonWidth: real, buttonHeight: real)

  datatype Point = Point(x: real, y: real)

  /** Upper bound `getSafePosition` puts on the left coordinate. */
  function MaxX(m: Measure): real
  {
    m.innerWidth - m.buttonWidth - Margin
  }

  /** Upper bound `getSafePosition` puts on the top coordinate. */
  function MaxY(m: Measure): real
  {
    m.innerHeight - m.buttonHeight - Margin
  }

  /** The whole button, placed with its top-left corner at `p`, keeps a margin
      away from every edge of the viewport. */
  predicate Inside(m: Measure, p: Point)
  {
    && Margin <= p.x && p.x + m.buttonWidth + Margin <= m.innerWidth
    && Margin <= p.y && p.y + m.buttonHeight + Margin <= m.innerHeight
  }

  /** `MaxX` and `MaxY` are the largest coordinates that keep the button inside:
      a position is inside exactly when each coordinate lies between the margin
      and its bound. */
  lemma InsideIff(m: Measure, p: Point)
    ensures Inside(m, p) <==> Margin <= p.x <= MaxX(m) && Margin <= p.y <= MaxY(m)
  {
  }

  /** One coordinate of a safe position: the draw `r` scaled by `maxC` and
      shifted by the margin, then clamped from above to `maxC` and from below
      to the margin. */
  function SafeCoord(maxC: real, r: Draw): (c: real)
    ensures c >= Margin
    ensures maxC >= Margin ==> c <= maxC
    ensures maxC < Margin ==> c == Margin
    ensures maxC >= Margin && Margin + r * maxC <= maxC ==> c == Margin + r * maxC
  {
    Max(Margin, Min(maxC, Margin + r * maxC))
  }

  /** When there is room, every coordinate between the margin and `maxC` is
      the result of some draw: the clamps cut nothing off the allowed range. */
  lemma SafeCoordReaches(maxC: real, v: real)
    requires Margin <= v <= maxC
    ensures exists r: Draw :: SafeCoord(maxC, r) == v
  {
    var r := (v - Margin) / maxC;
    assert r * maxC == v - Margin;
    assert r < 1.0 by {
      assert v - Margin < maxC;
    }
    assert SafeCoord(maxC, r) == v;
  }

  /** The top clamp is reached by every draw of at least (maxC - Margin) / maxC:
      all of them put the button on its outermost allowed coordinate. */
  lemma SafeCoordEdge(maxC: real, r: Draw)
    requires maxC >= Margin
    requires r >= (maxC - Margin) / maxC
    ensures SafeCoord(maxC, r) == maxC
  {
  }

  /** The position `getSafePosition` returns for the given measurements and draws. */
  function SafePosition(m: Measure, rx: Draw, ry: Draw): (p: Point)
    ensures p.x >= Margin && p.y >= Margin
    ensures MaxX(m) >= Margin && MaxY(m) >= Margin ==> Inside(m, p)
    ensures MaxX(m) >= Margin ==> p.x + m.buttonWidth + Margin <= m.innerWidth
    ensures MaxY(m) >= Margin ==> p.y + m.buttonHeight + Margin <= m.innerHeight
    ensures MaxX(m) < Margin ==> p.x == Margin
    ensures MaxY(m) < Margin ==> p.y == Margin
  {
    Point(SafeCoord(MaxX(m), rx), SafeCoord(MaxY(m), ry))
  }

  /** A button larger than the viewport allows is pinned at the margin, which
      leaves its far edge closer than a margin to (or beyond) the viewport's edge. */
  lemma DegenerateOverflows(m: Measure, rx: Draw, ry: Draw)
    requires MaxX(m) < Margin
    ensures SafePosition(m, rx, ry).x == Margin
    ensures SafePosition(m, rx, ry).x + m.buttonWidth + Margin > m.innerWidth
  {
  }
}
