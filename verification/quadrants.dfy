/** The quadrant classifier: both measures run on a 0–50 scale that is split
    at 25, and each of the four regions has a fixed fill/border colour pair. */
module Quadrants {

  /** The split point of both axes; a value equal to it is on the upper side. */
  const Midpoint: real := 25.0

  /** An `rgba(red, green, blue, alpha)` colour. */
  datatype Rgba = Rgba(red: nat, green: nat, blue: nat, alpha: real)

  /** A point's fill (`bg`) and border colours. */
  datatype ColorPair = ColorPair(bg: Rgba, border: Rgba)

  /** Which side of the midpoint a measure lies on. */
  datatype Half = Low | High

  /** A quadrant, named by the half of each axis it covers. */
  datatype Quadrant = Quadrant(x: Half, y: Half)

  function HalfOf(v: real): (h: Half)
    ensures h == High <==> v >= Midpoint
  {
    if v >= Midpoint then High else Low
  }

  function Classify(x: real, y: real): Quadrant
  {
    Quadrant(HalfOf(x), HalfOf(y))
  }

  /** A colour pair whose border repeats the fill's RGB with alpha 1, the fill
      having alpha 0.6. */
  function Pair(red: nat, green: nat, blue: nat): (c: ColorPair)
    ensures c.bg.alpha == 0.6 && c.border.alpha == 1.0
  {
    ColorPair(Rgba(red, green, blue, 0.6), Rgba(red, green, blue, 1.0))
  }

  /** The fixed palette: green, yellow, red and orange. */
  function PaletteOf(q: Quadrant): ColorPair
  {
    match q
    case Quadrant(High, High) => Pair(75, 192, 192)
    case Quadrant(Low, High) => Pair(255, 206, 86)
    case Quadrant(Low, Low) => Pair(255, 99, 132)
    case Quadrant(High, Low) => Pair(255, 159, 64)
  }

  predicate SameRgb(a: Rgba, b: Rgba)
  {
    a.red == b.red && a.green == b.green && a.blue == b.blue
  }

  /** The colour chosen for a point at (x, y), by the component's chain of tests. */
  function QuadrantColor(x: real, y: real): (c: ColorPair)
    ensures c == PaletteOf(Classify(x, y))
    ensures SameRgb(c.bg, c.border) && c.bg.alpha == 0.6 && c.border.alpha == 1.0
  {
    if x >= 25.0 && y >= 25.0 then Pair(75, 192, 192)
    else if x < 25.0 && y >= 25.0 then Pair(255, 206, 86)
    else if x < 25.0 && y < 25.0 then Pair(255, 99, 132)
    else Pair(255, 159, 64)
  }

  /** The four colour pairs are pairwise distinct. */
  lemma PaletteInjective(p: Quadrant, q: Quadrant)
    ensures PaletteOf(p) == PaletteOf(q) <==> p == q
  {
  }

  /** Two points share a colour exactly when they lie on the same side of the
      midpoint on both axes. */
  lemma ColorIdentifiesQuadrant(x1: real, y1: real, x2: real, y2: real)
    ensures QuadrantColor(x1, y1) == QuadrantColor(x2, y2)
        <==> ((x1 >= Midpoint <==> x2 >= Midpoint) && (y1 >= Midpoint <==> y2 >= Midpoint))
  {
    PaletteInjective(Classify(x1, y1), Classify(x2, y2));
  }

  /** A value of exactly 25 is coloured like any larger value, on either axis,
      and unlike any smaller one. */
  lemma MidpointBelongsToUpperHalf(d: real, other: real)
    requires d > 0.0
    ensures QuadrantColor(Midpoint, other) == QuadrantColor(Midpoint + d, other)
    ensures QuadrantColor(other, Midpoint) == QuadrantColor(other, Midpoint + d)
    ensures QuadrantColor(Midpoint, other) != QuadrantColor(Midpoint - d, other)
    ensures QuadrantColor(other, Midpoint) != QuadrantColor(other, Midpoint - d)
  {
    ColorIdentifiesQuadrant(Midpoint, other, Midpoint - d, other);
    ColorIdentifiesQuadrant(other, Midpoint, other, Midpoint - d);
  }
}
