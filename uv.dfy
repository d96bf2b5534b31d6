/** The fixed table `draw` uses to sample the atlas: one rectangle of
    normalised atlas coordinates per face, each a third of the unit square
    on a side. */
module UVMap {
  import opened Arith
  import opened Layout

  /** A rectangle of normalised atlas coordinates with corners (u0, v0)
      and (u1, v1). */
  datatype UVRect = UVRect(u0: real, v0: real, u1: real, v1: real)

  /** One tile of the 3×3 atlas in normalised coordinates. */
  const UStep: real := 1.0 / 3.0
  const VStep: real := 1.0 / 3.0

  /** The texture rectangle of each face: a third of the unit square on a
      side, inside the unit square. */
  function UV(f: Face): (r: UVRect)
    ensures r.u1 - r.u0 == 1.0 / 3.0 && r.v1 - r.v0 == 1.0 / 3.0
    ensures 0.0 <= r.u0 && r.u1 <= 1.0 && 0.0 <= r.v0 && r.v1 <= 1.0
  {
    match f
    case Back => UVRect(1.0 * UStep, 1.0 * VStep, 2.0 * UStep, 2.0 * VStep)
    case Ceil => UVRect(1.0 * UStep, 0.0 * VStep, 2.0 * UStep, 1.0 * VStep)
    case Floor => UVRect(1.0 * UStep, 2.0 * VStep, 2.0 * UStep, 3.0 * VStep)
    case Left => UVRect(0.0 * UStep, 1.0 * VStep, 1.0 * UStep, 2.0 * VStep)
    case Right => UVRect(2.0 * UStep, 1.0 * VStep, 3.0 * UStep, 2.0 * VStep)
  }

  /** The texture rectangles share interior points. */
  predicate UVOverlap(a: UVRect, b: UVRect)
  {
    a.u0 < b.u1 && b.u0 < a.u1 && a.v0 < b.v1 && b.v0 < a.v1
  }

  /** No two faces sample overlapping parts of the atlas. */
  lemma UVDisjoint(f: Face, g: Face)
    requires f != g
    ensures !UVOverlap(UV(f), UV(g))
  {
  }

  /** Rectangle `r` of a width×height atlas in normalised coordinates. */
  function Normalised(r: Rect, width: real, height: real): UVRect
    requires width > 0.0 && height > 0.0
  {
    UVRect(r.x / width, r.y / height, (r.x + r.w) / width, (r.y + r.h) / height)
  }

  /** k tiles of size t out of an atlas three tiles wide is k thirds. */
  lemma TileFraction(k: real, t: real)
    requires t > 0.0
    ensures (k * t) / (3.0 * t) == k / 3.0
  {
    var q := (k * t) / (3.0 * t);
    DivMul(k * t, 3.0 * t);
    assert (3.0 * q) * t == k * t;
    MulCancelEq(3.0 * q, k, t);
  }

  /** Each face samples exactly the normalised image of the atlas cell that
      `initBuffers` paints for it. */
  lemma {:induction false} UVIsPaintedCell(f: Face, tw: real, th: real)
    requires tw > 0.0 && th > 0.0
    ensures UV(f) == Normalised(Cell(Col(f), Row(f), tw, th), 3.0 * tw, 3.0 * th)
  {
    var c, r := Col(f) as real, Row(f) as real;
    TileFraction(c, tw);
    TileFraction(r, th);
    TileFraction(c + 1.0, tw);
    TileFraction(r + 1.0, th);
    assert c * tw + tw == (c + 1.0) * tw;
    assert r * th + th == (r + 1.0) * th;
  }

  /** In the shipped configuration (full-image crop, tile = image) the
      texture rectangle of every face is exactly the normalised rectangle
      painted for that face. */
  lemma {:induction false} UVMatchesPaints(tw: real, th: real)
    requires tw > 0.0 && th > 0.0
    ensures |AtlasPaints(tw, th, Rect(0.0, 0.0, tw, th))| == |PaintOrder|
    ensures forall i :: 0 <= i < |PaintOrder| ==>
      UV(PaintOrder[i]) == Normalised(AtlasPaints(tw, th, Rect(0.0, 0.0, tw, th))[i].dst, 3.0 * tw, 3.0 * th)
  {
    ShippedPaintsFillCells(tw, th);
    forall i | 0 <= i < |PaintOrder|
      ensures UV(PaintOrder[i]) == Normalised(AtlasPaints(tw, th, Rect(0.0, 0.0, tw, th))[i].dst, 3.0 * tw, 3.0 * th)
    {
      UVIsPaintedCell(PaintOrder[i], tw, th);
    }
  }
}
