/** Cropping an avatar: a picture behind a square view, dragged and zoomed, always covering the view. Over the reals. */
module Crop {
  const MAX_ZOOM := 4.0

  datatype Size = Size(w: real, h: real)

  datatype Offset = Offset(x: real, y: real)

  datatype Shot = Shot(scale: real, off: Offset)

  datatype Rect = Rect(sx: real, sy: real, size: real)

  function Times(a: real, b: real): real { a * b }

  function Over(a: real, b: real): real
    requires b != 0.0
  {
    a / b
  }

  function Low(a: real, b: real): real { if a < b then a else b }

  function High(a: real, b: real): real { if a > b then a else b }

  ghost predicate Picture(p: Size, view: real) {
    p.w > 0.0 && p.h > 0.0 && view > 0.0
  }

  function CoverScale(p: Size, view: real): real
    requires Picture(p, view)
  {
    High(Over(view, p.w), Over(view, p.h))
  }

  function CenterOffset(p: Size, scale: real, view: real): Offset {
    Offset((view - Times(p.w, scale)) / 2.0, (view - Times(p.h, scale)) / 2.0)
  }

  function ClampOffset(off: Offset, scale: real, p: Size, view: real): Offset {
    Offset(Low(0.0, High(view - Times(p.w, scale), off.x)), Low(0.0, High(view - Times(p.h, scale), off.y)))
  }

  function ZoomScale(target: real, minScale: real): real {
    High(minScale, Low(minScale * MAX_ZOOM, target))
  }

  /** Zoomed around the middle of the view, before it is pushed back over the view. */
  function ZoomOffset(cur: Shot, scale: real, view: real): Offset
    requires cur.scale > 0.0
  {
    var c, k := view / 2.0, Over(scale, cur.scale);
    Offset(c - Times(c - cur.off.x, k), c - Times(c - cur.off.y, k))
  }

  function ZoomTo(cur: Shot, target: real, minScale: real, p: Size, view: real): Shot
    requires cur.scale > 0.0
  {
    var scale := ZoomScale(target, minScale);
    Shot(scale, ClampOffset(ZoomOffset(cur, scale, view), scale, p, view))
  }

  function SourceRect(s: Shot, view: real): Rect
    requires s.scale > 0.0
  {
    Rect(Over(-s.off.x, s.scale), Over(-s.off.y, s.scale), Over(view, s.scale))
  }

  function ZoomFraction(scale: real, minScale: real): real {
    if minScale <= 0.0 then 0.0 else Over(scale - minScale, minScale * (MAX_ZOOM - 1.0))
  }

  /** The picture at this scale and offset leaves no part of the view empty. */
  predicate CoversView(off: Offset, scale: real, p: Size, view: real) {
    view - Times(p.w, scale) <= off.x <= 0.0 && view - Times(p.h, scale) <= off.y <= 0.0
  }

  /** The smallest scale that covers the view: any scale at or above it does, in both directions, and no smaller one. */
  lemma CoverScaleIsLeast(p: Size, view: real, scale: real)
    requires Picture(p, view)
    ensures CoverScale(p, view) > 0.0
    ensures (Times(p.w, scale) >= view && Times(p.h, scale) >= view) <==> scale >= CoverScale(p, view)
  {
    Quotient(view, p.w, scale);
    Quotient(view, p.h, scale);
    hide Over, Times;
  }

  lemma Quotient(a: real, b: real, s: real)
    requires b > 0.0 && a > 0.0
    ensures Over(a, b) > 0.0 && (Times(b, s) >= a <==> s >= Over(a, b))
  {
    var q := a / b;
    assert b * q == a;
    assert b * (s - q) == b * s - a;
    if s >= q { assert b * (s - q) >= 0.0; } else { assert b * (q - s) > 0.0; }
  }

  /** Pushing back always covers, and moves nothing exactly when the view was covered. */
  lemma ClampCovers(off: Offset, scale: real, p: Size, view: real)
    requires Times(p.w, scale) >= view && Times(p.h, scale) >= view
    ensures CoversView(ClampOffset(off, scale, p, view), scale, p, view)
    ensures ClampOffset(off, scale, p, view) == off <==> CoversView(off, scale, p, view)
  {
  }

  /** No covering offset is nearer to where the picture was dragged, in either direction. */
  lemma ClampIsNearest(off: Offset, scale: real, p: Size, view: real, other: Offset)
    requires Times(p.w, scale) >= view && Times(p.h, scale) >= view && CoversView(other, scale, p, view)
    ensures var c := ClampOffset(off, scale, p, view);
      (off.x <= c.x <= other.x || other.x <= c.x <= off.x || c.x == off.x) &&
      (off.y <= c.y <= other.y || other.y <= c.y <= off.y || c.y == off.y)
  {
    hide Times;
  }

  /** A zoom reaches its target inside the range, and the nearer end of the range outside it. */
  lemma ZoomReaches(target: real, least: real)
    requires least > 0.0
    ensures ZoomScale(target, least) ==
      if target < least then least else if target > 4.0 * least then 4.0 * least else target
  {
  }

  /** The slider stands at its start for the start scale, at its end for four times that, and moves on with the scale. */
  lemma SliderFollows(least: real, a: real, b: real)
    requires least > 0.0
    ensures ZoomFraction(least, least) == 0.0 && ZoomFraction(4.0 * least, least) == 1.0
    ensures a < b ==> ZoomFraction(a, least) < ZoomFraction(b, least)
  {
    var d := least * (MAX_ZOOM - 1.0);
    assert d == 3.0 * least && d > 0.0;
    assert 4.0 * least - least == d && d / d == 1.0;
    if a < b { Smaller(a - least, b - least, d); }
  }

  lemma Smaller(a: real, b: real, d: real)
    requires d > 0.0 && a < b
    ensures a / d < b / d
  {
    var x, y := a / d, b / d;
    assert x * d == a && y * d == b;
    assert (y - x) * d > 0.0;
  }

  // ----- whole gestures -----

  datatype Gesture = Zoom(target: real) | Drag(dx: real, dy: real)

  function Apply(s: Shot, g: Gesture, p: Size, view: real): Shot
    requires Picture(p, view) && s.scale > 0.0
  {
    match g
    case Zoom(target) => ZoomTo(s, target, CoverScale(p, view), p, view)
    case Drag(dx, dy) => s.(off := ClampOffset(Offset(s.off.x + dx, s.off.y + dy), s.scale, p, view))
  }

  function Start(p: Size, view: real): Shot
    requires Picture(p, view)
  {
    Shot(CoverScale(p, view), CenterOffset(p, CoverScale(p, view), view))
  }

  ghost predicate Sound(s: Shot, p: Size, view: real) {
    Picture(p, view) && s.scale > 0.0 && CoverScale(p, view) <= s.scale <= CoverScale(p, view) * MAX_ZOOM &&
    CoversView(s.off, s.scale, p, view)
  }

  lemma StartIsSound(p: Size, view: real)
    requires Picture(p, view)
    ensures Sound(Start(p, view), p, view)
  {
    CoverScaleIsLeast(p, view, CoverScale(p, view));
    hide Over, Times;
  }

  /** The picture starts with its middle in the middle of the view. */
  lemma StartIsCentred(p: Size, view: real)
    requires Picture(p, view)
    ensures CoverScale(p, view) > 0.0 && Middle(Start(p, view), view) == Offset(p.w / 2.0, p.h / 2.0)
  {
    CoverScaleIsLeast(p, view, CoverScale(p, view));
    var k := CoverScale(p, view);
    hide CoverScale;
    Halved(p.w, k);
    Halved(p.h, k);
    var o := CenterOffset(p, k, view);
    assert view / 2.0 - o.x == Times(p.w, k) / 2.0 && view / 2.0 - o.y == Times(p.h, k) / 2.0;
    hide Times, Over, CenterOffset;
  }

  lemma Halved(w: real, k: real)
    requires k > 0.0
    ensures Over(Times(w, k) / 2.0, k) == w / 2.0
  {
    var q := w * k / 2.0 / k;
    assert q * k == w * k / 2.0;
    assert (q - w / 2.0) * k == 0.0;
  }

  /** A drag that leaves the view covered moves the picture by just that much, and no gesture of this kind zooms. */
  lemma DragMoves(s: Shot, dx: real, dy: real, p: Size, view: real)
    requires Sound(s, p, view)
    ensures var t := Apply(s, Drag(dx, dy), p, view);
      t.scale == s.scale && (CoversView(Offset(s.off.x + dx, s.off.y + dy), s.scale, p, view) ==> t.off == Offset(s.off.x + dx, s.off.y + dy))
  {
    CoverScaleIsLeast(p, view, s.scale);
    hide Over, Times, CoverScale;
    ClampCovers(Offset(s.off.x + dx, s.off.y + dy), s.scale, p, view);
  }

  /** What is cut out is what the view shows: its corner sits at the corner of the view, and it is as wide as the view. */
  lemma CutIsView(s: Shot, view: real)
    requires s.scale > 0.0
    ensures var r := SourceRect(s, view);
      s.off.x + r.sx * s.scale == 0.0 && s.off.y + r.sy * s.scale == 0.0 && r.size * s.scale == view
  {
  }

  lemma GestureKeepsSound(s: Shot, g: Gesture, p: Size, view: real)
    requires Sound(s, p, view)
    ensures Sound(Apply(s, g, p, view), p, view)
  {
    hide Over, Times, CoverScale, ZoomOffset;
    var least := CoverScale(p, view);
    var t := Apply(s, g, p, view);
    CoverScaleIsLeast(p, view, t.scale);
    match g
    case Zoom(target) =>
      assert least <= t.scale <= least * MAX_ZOOM;
      ClampCovers(ZoomOffset(s, t.scale, view), t.scale, p, view);
    case Drag(dx, dy) =>
      ClampCovers(Offset(s.off.x + dx, s.off.y + dy), s.scale, p, view);
  }

  ghost function Run(p: Size, view: real, gs: seq<Gesture>): (s: Shot)
    requires Picture(p, view)
    ensures Sound(s, p, view)
  {
    if gs == [] then
      StartIsSound(p, view);
      Start(p, view)
    else
      var s := Run(p, view, gs[..|gs| - 1]);
      GestureKeepsSound(s, gs[|gs| - 1], p, view);
      Apply(s, gs[|gs| - 1], p, view)
  }

  /** After any gestures the part that is cut out lies inside the picture, and the slider is on its track. */
  lemma CutStaysInside(p: Size, view: real, gs: seq<Gesture>)
    requires Picture(p, view)
    ensures var s := Run(p, view, gs);
      var r := SourceRect(s, view);
      r.size > 0.0 && r.sx >= 0.0 && r.sy >= 0.0 && r.sx + r.size <= p.w && r.sy + r.size <= p.h &&
      0.0 <= ZoomFraction(s.scale, CoverScale(p, view)) <= 1.0
  {
    hide Over, Times, CoverScale, Run, ZoomFraction;
    var s := Run(p, view, gs);
    CoverScaleIsLeast(p, view, s.scale);
    Inside(s.off.x, s.scale, p.w, view);
    Inside(s.off.y, s.scale, p.h, view);
    Track(s.scale, CoverScale(p, view));
  }

  lemma Inside(x: real, scale: real, w: real, view: real)
    requires scale > 0.0 && view > 0.0 && view - Times(w, scale) <= x <= 0.0
    ensures Over(view, scale) > 0.0 && Over(-x, scale) >= 0.0 && Over(-x, scale) + Over(view, scale) <= w
  {
    var a, b := -x / scale, view / scale;
    assert a * scale == -x && b * scale == view;
    Signed(w - a - b, scale);
    assert (w - a - b) * scale == w * scale + x - view;
  }

  lemma Signed(a: real, s: real)
    requires s > 0.0
    ensures a * s >= 0.0 <==> a >= 0.0
  {
  }

  lemma Track(scale: real, least: real)
    requires least > 0.0 && least <= scale <= least * MAX_ZOOM
    ensures 0.0 <= ZoomFraction(scale, least) <= 1.0
  {
    var d := least * (MAX_ZOOM - 1.0);
    assert d > 0.0 && 0.0 <= scale - least <= d;
    Ratio(scale - least, d);
  }

  lemma Ratio(a: real, d: real)
    requires d > 0.0 && 0.0 <= a <= d
    ensures 0.0 <= a / d <= 1.0
  {
  }

  /** The point of the picture in the middle of the view. */
  function Middle(s: Shot, view: real): Offset
    requires s.scale > 0.0
  {
    Offset(Over(view / 2.0 - s.off.x, s.scale), Over(view / 2.0 - s.off.y, s.scale))
  }

  /** Before it is pushed back, a zoom leaves the middle of the view on the same point of the picture. */
  lemma ZoomAroundMiddle(s: Shot, scale: real, view: real)
    requires s.scale > 0.0 && scale > 0.0
    ensures Middle(Shot(scale, ZoomOffset(s, scale, view)), view) == Middle(s, view)
  {
    Spread(view / 2.0 - s.off.x, s.scale, scale);
    Spread(view / 2.0 - s.off.y, s.scale, scale);
    hide Over, Times;
  }

  /** A zoom that need not be pushed back leaves the middle of the view on the same point of the picture. */
  lemma ZoomKeepsMiddle(s: Shot, target: real, p: Size, view: real)
    requires Sound(s, p, view)
    requires var t := ZoomScale(target, CoverScale(p, view)); CoversView(ZoomOffset(s, t, view), t, p, view)
    ensures var t := Apply(s, Zoom(target), p, view); t.scale > 0.0 && Middle(t, view) == Middle(s, view)
  {
    hide Over, Times, CoverScale;
    var t := Apply(s, Zoom(target), p, view);
    CoverScaleIsLeast(p, view, CoverScale(p, view));
    CoverScaleIsLeast(p, view, t.scale);
    ClampCovers(ZoomOffset(s, t.scale, view), t.scale, p, view);
    assert t.off == ZoomOffset(s, t.scale, view);
    Spread(view / 2.0 - s.off.x, s.scale, t.scale);
    Spread(view / 2.0 - s.off.y, s.scale, t.scale);
  }

  lemma Spread(d: real, from: real, to: real)
    requires from > 0.0 && to > 0.0
    ensures Over(Times(d, Over(to, from)), to) == Over(d, from)
  {
    var k := to / from;
    assert k * from == to;
    assert (d * k) * from == d * to;
    assert (d * k / to) * to == d * k;
    var l, r := d * k / to, d / from;
    assert l * to == d * k && r * from == d;
    assert r * to == r * (k * from) == (r * from) * k == d * k;
    assert (l - r) * to == 0.0;
  }

  /** Two zooms that need not be pushed back are one: only the last target counts. */
  lemma ZoomsCompose(s: Shot, a: real, b: real, p: Size, view: real)
    requires Sound(s, p, view)
    requires var t := ZoomScale(a, CoverScale(p, view)); CoversView(ZoomOffset(s, t, view), t, p, view)
    ensures Apply(Apply(s, Zoom(a), p, view), Zoom(b), p, view) == Apply(s, Zoom(b), p, view)
  {
    hide Over, Times, CoverScale;
    var least := CoverScale(p, view);
    CoverScaleIsLeast(p, view, least);
    var t, u := ZoomScale(a, least), ZoomScale(b, least);
    CoverScaleIsLeast(p, view, t);
    ClampCovers(ZoomOffset(s, t, view), t, p, view);
    var first := Apply(s, Zoom(a), p, view);
    assert first == Shot(t, ZoomOffset(s, t, view));
    Chain(view / 2.0 - s.off.x, s.scale, t, u);
    Chain(view / 2.0 - s.off.y, s.scale, t, u);
    assert ZoomOffset(first, u, view) == ZoomOffset(s, u, view);
  }

  lemma Chain(d: real, from: real, mid: real, to: real)
    requires from > 0.0 && mid > 0.0
    ensures Times(Times(d, Over(mid, from)), Over(to, mid)) == Times(d, Over(to, from))
  {
    var k, m, n := mid / from, to / mid, to / from;
    assert k * from == mid && m * mid == to && n * from == to;
    assert (k * m) * from == (k * from) * m == to;
    assert (k * m - n) * from == 0.0;
    assert k * m == n;
    assert d * k * m == d * (k * m);
  }
}
