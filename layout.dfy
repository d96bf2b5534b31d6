/** Atlas layout arithmetic of `initBuffers`: the 3×3 grid of tiles, the
    uniform scale and letterbox offsets of the placed copy, and the five
    rectangles painted into the atlas. */
module Layout {
  import opened Arith

  /** The five walls of the room; the box has no front wall. */
  datatype Face = Back | Ceil | Floor | Left | Right

  /** Zero-based column of the atlas cell painted for a face. */
  function Col(f: Face): (c: nat)
    ensures c < 3
  {
    match f
    case Back => 1
    case Ceil => 1
    case Floor => 1
    case Left => 0
    case Right => 2
  }

  /** Zero-based row of the atlas cell painted for a face. */
  function Row(f: Face): (r: nat)
    ensures r < 3
  {
    match f
    case Back => 1
    case Ceil => 0
    case Floor => 2
    case Left => 1
    case Right => 1
  }

  /** An axis-aligned rectangle: origin (x, y), size (w, h). */
  datatype Rect = Rect(x: real, y: real, w: real, h: real)

  /** The rectangles share interior points. */
  predicate Overlap(a: Rect, b: Rect)
  {
    a.x < b.x + b.w && b.x < a.x + a.w && a.y < b.y + b.h && b.y < a.y + a.h
  }

  /** `a` lies within `b`. */
  predicate Inside(a: Rect, b: Rect)
  {
    b.x <= a.x && a.x + a.w <= b.x + b.w && b.y <= a.y && a.y + a.h <= b.y + b.h
  }

  /** Cell (col, row) of a grid of tw×th tiles. */
  function Cell(col: nat, row: nat, tw: real, th: real): Rect
  {
    Rect(col as real * tw, row as real * th, tw, th)
  }

  /** The whole atlas: three tiles by three tiles. */
  function AtlasRect(tw: real, th: real): Rect
  {
    Rect(0.0, 0.0, 3.0 * tw, 3.0 * th)
  }

  /** One cell lies to the left of, or above, another that differs from it;
      cells of a grid with non-negative tiles never share interior points. */
  lemma {:induction false} CellsDisjoint(c1: nat, r1: nat, c2: nat, r2: nat, tw: real, th: real)
    requires tw >= 0.0 && th >= 0.0
    requires c1 != c2 || r1 != r2
    ensures !Overlap(Cell(c1, r1, tw, th), Cell(c2, r2, tw, th))
  {
    if c1 != c2 {
      ColumnsApart(c1, r1, c2, r2, tw, th);
    } else {
      RowsApart(c1, r1, c2, r2, tw, th);
    }
  }

  /** Cells in different columns lie side by side: one ends where the
      other starts or earlier. */
  lemma ColumnsApart(c1: nat, r1: nat, c2: nat, r2: nat, tw: real, th: real)
    requires tw >= 0.0 && c1 != c2
    ensures Cell(c1, r1, tw, th).x + tw <= Cell(c2, r2, tw, th).x
         || Cell(c2, r2, tw, th).x + tw <= Cell(c1, r1, tw, th).x
  {
    if c1 < c2 {
      MulMono(c1 as real + 1.0, c2 as real, tw);
    } else {
      MulMono(c2 as real + 1.0, c1 as real, tw);
    }
  }

  /** Cells in different rows lie one above the other. */
  lemma RowsApart(c1: nat, r1: nat, c2: nat, r2: nat, tw: real, th: real)
    requires th >= 0.0 && r1 != r2
    ensures Cell(c1, r1, tw, th).y + th <= Cell(c2, r2, tw, th).y
         || Cell(c2, r2, tw, th).y + th <= Cell(c1, r1, tw, th).y
  {
    if r1 < r2 {
      MulMono(r1 as real + 1.0, r2 as real, th);
    } else {
      MulMono(r2 as real + 1.0, r1 as real, th);
    }
  }

  /** The shape of the copy placed in every cell: scale s, destination size
      (dw, dh) and the offsets (ox, oy) of the copy inside its tile. */
  datatype Placement = Placement(s: real, dw: real, dh: real, ox: real, oy: real)

  /** A copy of an sw×sh crop at scale s, centred in a tw×th tile. */
  function Centred(tw: real, th: real, sw: real, sh: real, s: real): (p: Placement)
    ensures p.dw * sh == p.dh * sw
    ensures 2.0 * p.ox + p.dw == tw && 2.0 * p.oy + p.dh == th
  {
    var dw := sw * s;
    var dh := sh * s;
    Placement(s, dw, dh, (tw - dw) * 0.5, (th - dh) * 0.5)
  }

  /** Placement as `initBuffers` computes it: the scale is the ratio of the
      tile's longer edge to the crop's longer edge. */
  function Place(tw: real, th: real, sw: real, sh: real): (p: Placement)
    requires tw >= 0.0 && th >= 0.0 && sw >= 0.0 && sh >= 0.0 && Max(sw, sh) > 0.0
    ensures p.dw * sh == p.dh * sw
    ensures Max(p.dw, p.dh) == Max(tw, th)
    ensures 2.0 * p.ox + p.dw == tw && 2.0 * p.oy + p.dh == th
  {
    var srcLong := Max(sw, sh);
    var dstLong := Max(tw, th);
    var s := dstLong / srcLong;
    MaxScaled(sw, sh, s);
    Centred(tw, th, sw, sh, s)
  }

  lemma MaxScaled(a: real, b: real, s: real)
    requires s >= 0.0
    ensures Max(a * s, b * s) == Max(a, b) * s
  {
    if a >= b { MulMono(b, a, s); } else { MulMono(a, b, s); }
  }

  /** The scale of a copy that fits inside the tile and fills it along one
      axis (the largest uniform scale that still fits). */
  function FitScale(tw: real, th: real, sw: real, sh: real): real
    requires tw >= 0.0 && th >= 0.0 && sw >= 0.0 && sh >= 0.0 && Max(sw, sh) > 0.0
  {
    if sh > 0.0 && sw * th <= sh * tw then th / sh else tw / sw
  }

  /** The letterboxed placement: a centred copy of the crop that keeps its
      aspect ratio, stays inside its tile and fills it along one axis. */
  function FitPlace(tw: real, th: real, sw: real, sh: real): (p: Placement)
    requires tw >= 0.0 && th >= 0.0 && sw >= 0.0 && sh >= 0.0 && Max(sw, sh) > 0.0
    ensures p.dw * sh == p.dh * sw
    ensures 0.0 <= p.ox && 0.0 <= p.oy && p.dw <= tw && p.dh <= th
    ensures p.dw == tw || p.dh == th
    ensures 2.0 * p.ox + p.dw == tw && 2.0 * p.oy + p.dh == th
  {
    FitScaleFits(tw, th, sw, sh);
    Centred(tw, th, sw, sh, FitScale(tw, th, sw, sh))
  }

  lemma FitScaleFits(tw: real, th: real, sw: real, sh: real)
    requires tw >= 0.0 && th >= 0.0 && sw >= 0.0 && sh >= 0.0 && Max(sw, sh) > 0.0
    ensures var p := Centred(tw, th, sw, sh, FitScale(tw, th, sw, sh));
      && p.dw * sh == p.dh * sw
      && 0.0 <= p.ox && 0.0 <= p.oy && p.dw <= tw && p.dh <= th
      && (p.dw == tw || p.dh == th)
  {
    var p := Centred(tw, th, sw, sh, FitScale(tw, th, sw, sh));
    if sh > 0.0 && sw * th <= sh * tw {
      assert p.dh == th;
      assert p.dw * sh == sw * th;
      assert p.dw <= tw by { MulCancel(p.dw, tw, sh); }
    } else if sh > 0.0 {
      assert p.dw == tw;
      assert p.dh * sw == sh * tw;
      assert p.dh <= th by { MulCancel(p.dh, th, sw); }
    }
  }

  /** Two rectangles inside two disjoint regions are disjoint. */
  lemma InsideDisjoint(a: Rect, b: Rect, ra: Rect, rb: Rect)
    requires Inside(a, ra) && Inside(b, rb) && !Overlap(ra, rb)
    ensures !Overlap(a, b)
  {
  }

  /** One paint of `initBuffers`: the destination rectangle in the atlas and
      the crop rectangle read from the image. */
  datatype Paint = Paint(dst: Rect, src: Rect)

  /** The faces in the order `initBuffers` paints them. */
  const PaintOrder: seq<Face> := [Back, Ceil, Floor, Left, Right]

  /** The five paints of `initBuffers`, in its order, for a tw×th tile, a
      crop rectangle and the placement shared by all five. */
  function Paints(tw: real, th: real, crop: Rect, p: Placement): (ps: seq<Paint>)
    ensures |ps| == |PaintOrder|
    ensures forall i :: 0 <= i < |ps| ==> ps[i].src == crop && ps[i].dst.w == p.dw && ps[i].dst.h == p.dh
  {
    [ Paint(Rect(tw + p.ox, th + p.oy, p.dw, p.dh), crop),
      Paint(Rect(tw + p.ox, 0.0 + p.oy, p.dw, p.dh), crop),
      Paint(Rect(tw + p.ox, th * 2.0 + p.oy, p.dw, p.dh), crop),
      Paint(Rect(0.0 + p.ox, th + p.oy, p.dw, p.dh), crop),
      Paint(Rect(tw * 2.0 + p.ox, th + p.oy, p.dw, p.dh), crop) ]
  }

  /** Tile sizes are non-negative and the crop has a positive longer edge,
      the divisor of the scale. */
  predicate ValidCrop(tw: real, th: real, crop: Rect)
  {
    tw >= 0.0 && th >= 0.0 && crop.w >= 0.0 && crop.h >= 0.0 && Max(crop.w, crop.h) > 0.0
  }

  /** The paints with the placement computed as `initBuffers` writes it. */
  function AsWrittenPaints(tw: real, th: real, crop: Rect): (ps: seq<Paint>)
    requires ValidCrop(tw, th, crop)
    ensures |ps| == |PaintOrder|
    ensures forall i :: 0 <= i < |ps| ==>
      ps[i].src == crop && ps[i].dst.w * crop.h == ps[i].dst.h * crop.w
      && Max(ps[i].dst.w, ps[i].dst.h) == Max(tw, th)
  {
    Paints(tw, th, crop, Place(tw, th, crop.w, crop.h))
  }

  /** The paints with the letterboxed placement (see FitPlace). */
  function AtlasPaints(tw: real, th: real, crop: Rect): (ps: seq<Paint>)
    requires ValidCrop(tw, th, crop)
    ensures |ps| == |PaintOrder|
    ensures forall i :: 0 <= i < |ps| ==>
      ps[i].src == crop && ps[i].dst.w * crop.h == ps[i].dst.h * crop.w
      && ps[i].dst.w <= tw && ps[i].dst.h <= th
  {
    Paints(tw, th, crop, FitPlace(tw, th, crop.w, crop.h))
  }

  /** All five paints use the same size, offsets and crop; they differ only
      in the origin (col·tw, row·th) of the face's cell. */
  lemma {:induction false} PaintsDifferOnlyInCell(tw: real, th: real, crop: Rect, p: Placement)
    ensures |Paints(tw, th, crop, p)| == |PaintOrder|
    ensures forall i :: 0 <= i < |PaintOrder| ==>
      var c := Cell(Col(PaintOrder[i]), Row(PaintOrder[i]), tw, th);
      Paints(tw, th, crop, p)[i] == Paint(Rect(c.x + p.ox, c.y + p.oy, p.dw, p.dh), crop)
  {
    var ps := Paints(tw, th, crop, p);
    assert Cell(1, 1, tw, th).x == tw && Cell(1, 1, tw, th).y == th;
    assert Cell(1, 0, tw, th).x == tw && Cell(1, 0, tw, th).y == 0.0;
    assert Cell(1, 2, tw, th).x == tw && Cell(1, 2, tw, th).y == th * 2.0;
    assert Cell(0, 1, tw, th).x == 0.0 && Cell(0, 1, tw, th).y == th;
    assert Cell(2, 1, tw, th).x == tw * 2.0 && Cell(2, 1, tw, th).y == th;
  }

  /** The copy is centred in its tile and no larger than it. */
  predicate FitsTile(p: Placement, tw: real, th: real)
  {
    0.0 <= p.ox && 0.0 <= p.oy && 2.0 * p.ox + p.dw == tw && 2.0 * p.oy + p.dh == th
  }

  /** A placement that fits its tile keeps every paint inside its face's cell. */
  lemma {:induction false} PaintsInCells(tw: real, th: real, crop: Rect, p: Placement)
    requires FitsTile(p, tw, th)
    ensures |Paints(tw, th, crop, p)| == |PaintOrder|
    ensures forall i :: 0 <= i < |PaintOrder| ==>
      Inside(Paints(tw, th, crop, p)[i].dst, Cell(Col(PaintOrder[i]), Row(PaintOrder[i]), tw, th))
  {
    PaintsDifferOnlyInCell(tw, th, crop, p);
  }

  /** The four corner cells of the grid, which no face uses. */
  predicate Corner(col: nat, row: nat)
  {
    (col == 0 || col == 2) && (row == 0 || row == 2)
  }

  /** The five faces are painted into five different cells. */
  lemma FaceCellsDistinct(i: nat, j: nat)
    requires i < j < |PaintOrder|
    ensures Col(PaintOrder[i]) != Col(PaintOrder[j]) || Row(PaintOrder[i]) != Row(PaintOrder[j])
  {
  }

  /** After `initBuffers` the five painted rectangles share no interior
      point, each lies inside the 3·tw × 3·th atlas, and none reaches into
      a corner cell, which therefore stays blank. */
  lemma {:induction false} AtlasPaintsLayout(tw: real, th: real, crop: Rect)
    requires ValidCrop(tw, th, crop)
    ensures |AtlasPaints(tw, th, crop)| == 5
    ensures forall i, j :: 0 <= i < j < 5 ==>
      !Overlap(AtlasPaints(tw, th, crop)[i].dst, AtlasPaints(tw, th, crop)[j].dst)
    ensures forall i :: 0 <= i < 5 ==> Inside(AtlasPaints(tw, th, crop)[i].dst, AtlasRect(tw, th))
    ensures forall i, col: nat, row: nat :: 0 <= i < 5 && Corner(col, row) ==>
      !Overlap(AtlasPaints(tw, th, crop)[i].dst, Cell(col, row, tw, th))
  {
    var p := FitPlace(tw, th, crop.w, crop.h);
    var ps := AtlasPaints(tw, th, crop);
    PaintsInCells(tw, th, crop, p);
    forall i, j | 0 <= i < j < 5 ensures !Overlap(ps[i].dst, ps[j].dst) {
      var f, g := PaintOrder[i], PaintOrder[j];
      FaceCellsDistinct(i, j);
      CellsDisjoint(Col(f), Row(f), Col(g), Row(g), tw, th);
      InsideDisjoint(ps[i].dst, ps[j].dst, Cell(Col(f), Row(f), tw, th), Cell(Col(g), Row(g), tw, th));
    }
    forall i | 0 <= i < 5 ensures Inside(ps[i].dst, AtlasRect(tw, th)) {
      var f := PaintOrder[i];
      assert Inside(Cell(Col(f), Row(f), tw, th), AtlasRect(tw, th));
    }
    forall i, col: nat, row: nat | 0 <= i < 5 && Corner(col, row)
      ensures !Overlap(ps[i].dst, Cell(col, row, tw, th))
    {
      var f := PaintOrder[i];
      CellsDisjoint(Col(f), Row(f), col, row, tw, th);
      InsideDisjoint(ps[i].dst, Cell(col, row, tw, th), Cell(Col(f), Row(f), tw, th), Cell(col, row, tw, th));
    }
  }

  /** With the full-image crop and the tile equal to the image, both
      placements are the identity: scale 1, no letterbox. */
  lemma ShippedPlacement(tw: real, th: real)
    requires tw >= 0.0 && th >= 0.0 && Max(tw, th) > 0.0
    ensures Place(tw, th, tw, th) == Placement(1.0, tw, th, 0.0, 0.0)
    ensures FitPlace(tw, th, tw, th) == Placement(1.0, tw, th, 0.0, 0.0)
  {
    DivSelf(Max(tw, th));
    if th > 0.0 {
      DivSelf(th);
    } else {
      DivSelf(tw);
    }
  }

  /** In the shipped configuration each face's copy fills its cell exactly. */
  lemma {:induction false} ShippedPaintsFillCells(tw: real, th: real)
    requires tw >= 0.0 && th >= 0.0 && Max(tw, th) > 0.0
    ensures |AtlasPaints(tw, th, Rect(0.0, 0.0, tw, th))| == 5
    ensures forall i :: 0 <= i < 5 ==>
      AtlasPaints(tw, th, Rect(0.0, 0.0, tw, th))[i].dst == Cell(Col(PaintOrder[i]), Row(PaintOrder[i]), tw, th)
    ensures AsWrittenPaints(tw, th, Rect(0.0, 0.0, tw, th)) == AtlasPaints(tw, th, Rect(0.0, 0.0, tw, th))
  {
    ShippedPlacement(tw, th);
    PaintsDifferOnlyInCell(tw, th, Rect(0.0, 0.0, tw, th), Placement(1.0, tw, th, 0.0, 0.0));
  }

  /** The placement as written fits the tile exactly when it coincides with
      the letterboxed one. */
  lemma {:induction false} PlaceFitsIffLetterboxed(tw: real, th: real, sw: real, sh: real)
    requires tw > 0.0 && th > 0.0 && sw > 0.0 && sh > 0.0
    ensures FitsTile(Place(tw, th, sw, sh), tw, th) <==> Place(tw, th, sw, sh) == FitPlace(tw, th, sw, sh)
  {
    var p := Place(tw, th, sw, sh);
    if FitsTile(p, tw, th) {
      var f := FitScale(tw, th, sw, sh);
      FittingScaleBounded(tw, th, sw, sh, p.s);
      LongEdgeScaleBounds(tw, th, sw, sh, p.s, f);
      assert p == Centred(tw, th, sw, sh, f);
    }
  }

  /** A scale whose copy fits the tile is at most the letterboxed scale. */
  lemma FittingScaleBounded(tw: real, th: real, sw: real, sh: real, s: real)
    requires tw > 0.0 && th > 0.0 && sw > 0.0 && sh > 0.0
    requires sw * s <= tw && sh * s <= th
    ensures s <= FitScale(tw, th, sw, sh)
  {
    if sw * th <= sh * tw {
      assert s * sh <= (th / sh) * sh;
      MulCancel(s, th / sh, sh);
    } else {
      assert s * sw <= (tw / sw) * sw;
      MulCancel(s, tw / sw, sw);
    }
  }

  /** The written scale fills the tile's longer edge, which the letterboxed
      copy never exceeds, so the letterboxed scale is at most the written one. */
  lemma LongEdgeScaleBounds(tw: real, th: real, sw: real, sh: real, s: real, f: real)
    requires tw > 0.0 && th > 0.0 && sw > 0.0 && sh > 0.0
    requires s == Max(tw, th) / Max(sw, sh) && f == FitScale(tw, th, sw, sh)
    ensures f <= s
  {
    FitLongEdge(tw, th, sw, sh);
    ScaleBelowQuotient(f, s, Max(sw, sh), Max(tw, th));
  }

  /** The letterboxed copy's longer edge is at most the tile's. */
  lemma FitLongEdge(tw: real, th: real, sw: real, sh: real)
    requires tw > 0.0 && th > 0.0 && sw > 0.0 && sh > 0.0
    ensures Max(sw, sh) * FitScale(tw, th, sw, sh) <= Max(tw, th)
  {
    var f := FitScale(tw, th, sw, sh);
    FitScaleFits(tw, th, sw, sh);
    MaxScaled(sw, sh, f);
  }

  lemma ScaleBelowQuotient(f: real, s: real, m: real, t: real)
    requires m > 0.0 && m * f <= t && s == t / m
    ensures f <= s
  {
    DivMul(t, m);
    MulCancel(f, s, m);
  }

  /** The placement as written lets a crop whose shape differs from the
      tile's spill out of its cell: a 600×600 crop in a 600×800 tile is
      scaled to 800×800, and the ceiling copy reaches into corner cell (0,0). */
  lemma PlaceSpillsIntoCorner()
    ensures Place(600.0, 800.0, 600.0, 600.0) == Placement(4.0 / 3.0, 800.0, 800.0, -100.0, 0.0)
    ensures AsWrittenPaints(600.0, 800.0, Rect(0.0, 0.0, 600.0, 600.0))[1].dst == Rect(500.0, 0.0, 800.0, 800.0)
    ensures Overlap(AsWrittenPaints(600.0, 800.0, Rect(0.0, 0.0, 600.0, 600.0))[1].dst, Cell(0, 0, 600.0, 800.0))
  {
    assert Max(600.0, 600.0) == 600.0 && Max(600.0, 800.0) == 800.0;
    assert 800.0 / 600.0 == 4.0 / 3.0;
    assert 600.0 * (4.0 / 3.0) == 800.0;
  }
}
