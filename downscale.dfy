/** The size an uploaded image is shrunk to before the atlas is rebuilt:
    images whose longer edge exceeds 960 pixels are scaled down uniformly
    so that the longer edge becomes 960. */
module Downscale {
  import opened Arith

  /** An image's size in pixels. */
  datatype Size = Size(width: nat, height: nat)

  const MaxLongEdge: nat := 960

  function MaxN(a: nat, b: nat): nat { if a >= b then a else b }
  function MinN(a: nat, b: nat): nat { if a <= b then a else b }

  /** JavaScript's Math.round on an exact real: the nearest integer, halves
      rounded up. */
  function Round(x: real): (r: int)
    ensures x - 0.5 < r as real <= x + 0.5
  {
    (x + 0.5).Floor
  }

  lemma RoundMono(x: real, y: real)
    requires x <= y
    ensures Round(x) <= Round(y)
  {
  }

  lemma RoundOfInt(n: int)
    ensures Round(n as real) == n
  {
  }

  /** The size after the upload callback's downscale. */
  function Target(w: nat, h: nat): (r: Size)
    ensures MaxN(w, h) <= MaxLongEdge ==> r == Size(w, h)
    ensures MaxN(w, h) > MaxLongEdge ==> MaxN(r.width, r.height) == MaxLongEdge
  {
    var longEdge := MaxN(w, h);
    if longEdge > MaxLongEdge then
      var scale := MaxLongEdge as real / longEdge as real;
      var nw := Round(w as real * scale);
      var nh := Round(h as real * scale);
      ScaledEdges(w, h, longEdge, scale);
      Size(nw, nh)
    else
      Size(w, h)
  }

  /** The longer edge scales to exactly 960 and the other to at most 960. */
  lemma ScaledEdges(w: nat, h: nat, longEdge: nat, scale: real)
    requires longEdge == MaxN(w, h) > MaxLongEdge
    requires scale == MaxLongEdge as real / longEdge as real
    ensures 0 <= Round(w as real * scale) <= MaxLongEdge
    ensures 0 <= Round(h as real * scale) <= MaxLongEdge
    ensures MaxN(Round(w as real * scale), Round(h as real * scale)) == MaxLongEdge
  {
    var top := longEdge as real * scale;
    assert top == MaxLongEdge as real by { DivMul(MaxLongEdge as real, longEdge as real); }
    RoundOfInt(MaxLongEdge);
    MulMono(w as real, longEdge as real, scale);
    MulMono(h as real, longEdge as real, scale);
    RoundMono(w as real * scale, top);
    RoundMono(h as real * scale, top);
  }

  /** Each new edge is within half a pixel of the exactly scaled edge. */
  lemma {:induction false} TargetNearProportional(w: nat, h: nat)
    requires MaxN(w, h) > MaxLongEdge
    ensures var s := MaxLongEdge as real / MaxN(w, h) as real;
      && w as real * s - 0.5 < Target(w, h).width as real <= w as real * s + 0.5
      && h as real * s - 0.5 < Target(w, h).height as real <= h as real * s + 0.5
  {
  }

  /** Downscaling keeps the orientation: a landscape image stays landscape. */
  lemma {:induction false} TargetKeepsOrientation(w: nat, h: nat)
    ensures w >= h ==> Target(w, h).width >= Target(w, h).height
    ensures h >= w ==> Target(w, h).height >= Target(w, h).width
  {
    var L := MaxN(w, h);
    if L > MaxLongEdge {
      var s := MaxLongEdge as real / L as real;
      assert Target(w, h) == Size(Round(w as real * s), Round(h as real * s));
      if w >= h {
        ScaledOrder(h, w, s);
      }
      if h >= w {
        ScaledOrder(w, h, s);
      }
    }
  }

  /** Scaling by a non-negative factor and rounding keeps the order of two
      edges. */
  lemma ScaledOrder(a: nat, b: nat, s: real)
    requires a <= b && s >= 0.0
    ensures Round(a as real * s) <= Round(b as real * s)
  {
    MulMono(a as real, b as real, s);
    RoundMono(a as real * s, b as real * s);
  }

  /** A downscaled image is not downscaled again. */
  lemma TargetIdempotent(w: nat, h: nat)
    ensures Target(Target(w, h).width, Target(w, h).height) == Target(w, h)
  {
  }

  /** Both new edges are positive exactly when the image is not flatter
      (or taller) than 1920:1; otherwise the shorter edge rounds to 0. */
  lemma {:induction false} TargetPositiveIff(w: nat, h: nat)
    ensures Target(w, h).width > 0 && Target(w, h).height > 0
      <==> w > 0 && h > 0 && MaxN(w, h) <= 2 * MaxLongEdge * MinN(w, h)
  {
    var L := MaxN(w, h);
    if L > MaxLongEdge {
      if w >= h {
        ShortEdgePositiveIff(h, w);
      } else {
        ShortEdgePositiveIff(w, h);
      }
    }
  }

  /** The shorter edge `a` of an image with longer edge `b` > 960 stays
      positive exactly when 1920·a >= b. */
  lemma ShortEdgePositiveIff(a: nat, b: nat)
    requires a <= b && b > MaxLongEdge
    ensures Round(a as real * (MaxLongEdge as real / b as real)) > 0 <==> b <= 2 * MaxLongEdge * a
  {
    var x := a as real * (MaxLongEdge as real / b as real);
    DivMul(MaxLongEdge as real, b as real);
    assert x * b as real == a as real * MaxLongEdge as real;
    if b <= 2 * MaxLongEdge * a {
      assert 0.5 * b as real <= x * b as real;
      MulCancel(0.5, x, b as real);
    } else {
      assert x * b as real < 0.5 * b as real;
      if x >= 0.5 {
        MulMono(0.5, x, b as real);
      }
    }
  }

  /** A 2000×1 strip is downscaled to 960×0. */
  lemma TargetFlattensStrip()
    ensures Target(2000, 1) == Size(960, 0)
  {
    ScaledEdges(2000, 1, 2000, 960.0 / 2000.0);
    assert 960.0 / 2000.0 == 0.48;
  }
}
