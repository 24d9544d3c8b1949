/** The two box tests of the engine, on plain values: the overlap test behind
    `Game.CheckCollision` (open on every side) and the point test behind
    `Game.PointInGO` (closed on every side). Coordinates are exact reals. */
module Geometry {

  /** A game object's rectangle: top-left corner, width and height. Nothing forces the
      size to be non-negative; a fresh game object has size 0 by 0. */
  datatype Box = Box(x: real, y: real, width: real, height: real)

  /** The overlap test of `Game.CheckCollision`: strict on all four comparisons. Boxes
      only overlap when together they have positive width and height, so two boxes of
      size 0 by 0 never do. */
  predicate Overlaps(a: Box, b: Box): (r: bool)
    ensures r ==> a.width + b.width > 0.0 && a.height + b.height > 0.0
  {
    a.x < b.x + b.width &&
    a.x + a.width > b.x &&
    a.y < b.y + b.height &&
    a.y + a.height > b.y
  }

  /** The point test of `Game.PointInGO`: the closed rectangle, edges and corners
      included. A box of negative width or height contains no point. */
  predicate Contains(b: Box, px: real, py: real): (r: bool)
    ensures r ==> b.width >= 0.0 && b.height >= 0.0
  {
    px >= b.x &&
    px <= b.x + b.width &&
    py >= b.y &&
    py <= b.y + b.height
  }

  /** The open rectangle: strictly inside, off every edge. */
  predicate Interior(b: Box, px: real, py: real) {
    b.x < px < b.x + b.width && b.y < py < b.y + b.height
  }

  function Min(a: real, b: real): real { if a <= b then a else b }
  function Max(a: real, b: real): real { if a <= b then b else a }

  /** The overlap test does not depend on which box comes first. */
  lemma OverlapsSymmetric(a: Box, b: Box)
    ensures Overlaps(a, b) <==> Overlaps(b, a)
  {
  }

  /** Boxes that only meet along an edge (one starts where the other ends, on either
      axis) do not overlap, however they lie on the other axis. */
  lemma TouchingBoxesDoNotOverlap(a: Box, b: Box)
    requires b.x == a.x + a.width || a.x == b.x + b.width ||
             b.y == a.y + a.height || a.y == b.y + b.height
    ensures !Overlaps(a, b)
  {
  }

  /** For boxes of positive size the strict test is exactly "the open rectangles share a
      point": the test counts area in common and nothing else. */
  lemma OverlapsIffSharedInterior(a: Box, b: Box)
    requires a.width > 0.0 && a.height > 0.0 && b.width > 0.0 && b.height > 0.0
    ensures Overlaps(a, b) <==> exists px, py :: Interior(a, px, py) && Interior(b, px, py)
  {
    if Overlaps(a, b) {
      var px := (Max(a.x, b.x) + Min(a.x + a.width, b.x + b.width)) / 2.0;
      var py := (Max(a.y, b.y) + Min(a.y + a.height, b.y + b.height)) / 2.0;
      assert Interior(a, px, py) && Interior(b, px, py);
    }
    if exists px, py :: Interior(a, px, py) && Interior(b, px, py) {
      var px, py :| Interior(a, px, py) && Interior(b, px, py);
      assert Overlaps(a, b);
    }
  }

  /** Without positive size that reading fails: a box of size 0 by 0 strictly inside
      another overlaps it, although the two open rectangles share no point. */
  lemma ZeroSizeBoxInsideOverlaps(a: Box, b: Box)
    requires a.width == 0.0 && a.height == 0.0 && Interior(b, a.x, a.y)
    ensures Overlaps(a, b) && Overlaps(b, a)
    ensures forall px, py :: !(Interior(a, px, py) && Interior(b, px, py))
  {
  }

  /** Every corner of a box of non-negative size lies in it: the point test is inclusive
      on all four edges. */
  lemma CornersContained(b: Box)
    requires b.width >= 0.0 && b.height >= 0.0
    ensures Contains(b, b.x, b.y) && Contains(b, b.x + b.width, b.y)
    ensures Contains(b, b.x, b.y + b.height) && Contains(b, b.x + b.width, b.y + b.height)
  {
  }

  /** A box of size 0 by 0 contains its own corner and nothing else. */
  lemma ZeroSizeContainsOnlyItsCorner(b: Box, px: real, py: real)
    requires b.width == 0.0 && b.height == 0.0
    ensures Contains(b, px, py) <==> px == b.x && py == b.y
  {
  }

  /** The two conventions differ on a shared edge: a point on the edge where two boxes
      touch lies in both boxes, and still the boxes do not overlap. */
  lemma SharedEdgePointInBoth(a: Box, b: Box, py: real)
    requires a.width >= 0.0 && b.width >= 0.0
    requires b.x == a.x + a.width
    requires a.y <= py <= a.y + a.height && b.y <= py <= b.y + b.height
    ensures Contains(a, b.x, py) && Contains(b, b.x, py)
    ensures !Overlaps(a, b)
  {
  }
}
