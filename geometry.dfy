/** Pure geometry used by the simulation: clamping and axis-aligned boxes. */
module Geometry {

  /** Math.min on two numbers. */
  function Min(a: real, b: real): (r: real)
    ensures r <= a && r <= b && (r == a || r == b)
  {
    if a <= b then a else b
  }

  /** Math.max on two numbers. */
  function Max(a: real, b: real): (r: real)
    ensures r >= a && r >= b && (r == a || r == b)
  {
    if a >= b then a else b
  }

  /** clamp(val, min, max) = Math.max(min, Math.min(max, val)).
      When lo > hi the lower bound wins, as it does in the source. */
  function Clamp(v: real, lo: real, hi: real): (r: real)
    ensures lo <= r
    ensures lo <= hi ==> r <= hi
    ensures lo <= v <= hi ==> r == v
    ensures v < lo ==> r == lo
    ensures lo <= hi < v ==> r == hi
    ensures hi < lo ==> r == lo
  {
    Max(lo, Min(hi, v))
  }

  /** An axis-aligned box: top-left corner (x, y), width w and height h
      (screen coordinates: y grows downwards). */
  datatype Box = Box(x: real, y: real, w: real, h: real)

  datatype Point = Point(x: real, y: real)

  /** rectsIntersect: every one of the four comparisons is strict. */
  predicate RectsIntersect(a: Box, b: Box)
  {
    a.x < b.x + b.w &&
    a.x + a.w > b.x &&
    a.y < b.y + b.h &&
    a.y + a.h > b.y
  }

  /** p lies in the open interior of b. */
  predicate StrictlyInside(p: Point, b: Box)
  {
    b.x < p.x < b.x + b.w && b.y < p.y < b.y + b.h
  }

  predicate NonDegenerate(b: Box)
  {
    b.w > 0.0 && b.h > 0.0
  }

  /** The test does not depend on the order of its two boxes. */
  lemma RectsIntersectSymmetric(a: Box, b: Box)
    ensures RectsIntersect(a, b) <==> RectsIntersect(b, a)
  {
  }

  /** Boxes whose edges only touch, on either axis and on either side, do not intersect. */
  lemma TouchingEdgesDoNotIntersect(a: Box, b: Box)
    requires a.x + a.w == b.x || b.x + b.w == a.x || a.y + a.h == b.y || b.y + b.h == a.y
    ensures !RectsIntersect(a, b)
  {
  }

  /** Reference meaning of the test: two boxes of positive size intersect
      exactly when some point lies strictly inside both of them. */
  lemma IntersectIffCommonInteriorPoint(a: Box, b: Box)
    requires NonDegenerate(a) && NonDegenerate(b)
    ensures RectsIntersect(a, b) <==> exists p :: StrictlyInside(p, a) && StrictlyInside(p, b)
  {
    if RectsIntersect(a, b) {
      var px := (Max(a.x, b.x) + Min(a.x + a.w, b.x + b.w)) / 2.0;
      var py := (Max(a.y, b.y) + Min(a.y + a.h, b.y + b.h)) / 2.0;
      var p := Point(px, py);
      assert StrictlyInside(p, a) && StrictlyInside(p, b);
    }
  }

  /** The box of size (f*w, f*h) centred inside the box (x, y, w, h): the
      shrunk hitboxes of the collision passes. */
  function Hitbox(x: real, y: real, w: real, h: real, f: real): (r: Box)
    ensures r.x + r.w / 2.0 == x + w / 2.0 && r.y + r.h / 2.0 == y + h / 2.0
    ensures r.w == f * w && r.h == f * h
    ensures 0.0 <= f <= 1.0 && w >= 0.0 && h >= 0.0 ==>
              x <= r.x && r.x + r.w <= x + w && y <= r.y && r.y + r.h <= y + h
  {
    var sw := w * f;
    var sh := h * f;
    Box(x + (w - sw) / 2.0, y + (h - sh) / 2.0, sw, sh)
  }
}
