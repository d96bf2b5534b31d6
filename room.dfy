/** Room geometry of `draw`: the responsive room size, its half-extents and
    the four textured vertices emitted for each of the five walls. */
module Room {
  import opened Arith
  import opened Layout
  import opened UVMap

  /** Room width, height and depth. */
  datatype Dims = Dims(roomW: real, roomH: real, roomD: real)

  /** The room for a w×h buffer and an imgW×imgH image: height and depth
      scale with the buffer's shorter side, and the width follows from the
      height so that the back wall has the image's aspect ratio. */
  function RoomDims(w: nat, h: nat, imgW: nat, imgH: nat): (d: Dims)
    requires imgH > 0
    ensures d.roomH == 1.25 * Min(w as real, h as real)
    ensures d.roomD == 1.6 * Min(w as real, h as real)
    ensures d.roomW * imgH as real == d.roomH * imgW as real
  {
    var S := Min(w as real, h as real);
    var imgAspect := imgW as real / imgH as real;
    var roomH := S * 1.25;
    var roomW := roomH * imgAspect;
    var roomD := S * 1.60;
    DivMul(imgW as real, imgH as real);
    assert roomW * imgH as real == roomH * (imgAspect * imgH as real);
    Dims(roomW, roomH, roomD)
  }

  /** A 1920×1080 buffer gives a 1350-high, 1728-deep room; an 800×600
      image makes it 1800 wide. */
  lemma RoomDimsFullHd()
    ensures RoomDims(1920, 1080, 800, 600) == Dims(1800.0, 1350.0, 1728.0)
  {
    assert 800.0 / 600.0 == 4.0 / 3.0;
  }

  /** Half-extents of the room box, centred on the origin. */
  datatype Box = Box(hw: real, hh: real, hd: real)

  function HalfExtents(d: Dims): (b: Box)
    ensures b.hw - -b.hw == d.roomW && b.hh - -b.hh == d.roomH && b.hd - -b.hd == d.roomD
  {
    Box(d.roomW * 0.5, d.roomH * 0.5, d.roomD * 0.5)
  }

  /** A vertex with its position and its texture coordinates. */
  datatype Vertex = Vertex(x: real, y: real, z: real, u: real, v: real)

  /** The four vertices `draw` emits for a wall, in its order. */
  function Quad(f: Face, b: Box): (q: seq<Vertex>)
    ensures |q| == 4
  {
    var uv := UV(f);
    var Box(hw, hh, hd) := b;
    match f
    case Back =>
      [ Vertex(-hw, -hh, -hd, uv.u0, uv.v0), Vertex(hw, -hh, -hd, uv.u1, uv.v0),
        Vertex(hw, hh, -hd, uv.u1, uv.v1), Vertex(-hw, hh, -hd, uv.u0, uv.v1) ]
    case Floor =>
      [ Vertex(-hw, hh, hd, uv.u0, uv.v1), Vertex(hw, hh, hd, uv.u1, uv.v1),
        Vertex(hw, hh, -hd, uv.u1, uv.v1), Vertex(-hw, hh, -hd, uv.u0, uv.v1) ]
    case Ceil =>
      [ Vertex(-hw, -hh, -hd, uv.u0, uv.v0), Vertex(hw, -hh, -hd, uv.u1, uv.v0),
        Vertex(hw, -hh, hd, uv.u1, uv.v0), Vertex(-hw, -hh, hd, uv.u0, uv.v0) ]
    case Left =>
      [ Vertex(-hw, -hh, hd, uv.u0, uv.v0), Vertex(-hw, -hh, -hd, uv.u0, uv.v0),
        Vertex(-hw, hh, -hd, uv.u0, uv.v1), Vertex(-hw, hh, hd, uv.u0, uv.v1) ]
    case Right =>
      [ Vertex(hw, -hh, -hd, uv.u1, uv.v0), Vertex(hw, -hh, hd, uv.u1, uv.v0),
        Vertex(hw, hh, hd, uv.u1, uv.v1), Vertex(hw, hh, -hd, uv.u1, uv.v1) ]
  }

  /** The walls in the order `draw` emits them. */
  const EmitOrder: seq<Face> := [Back, Floor, Ceil, Left, Right]

  /** Everything `draw` emits for a room: one quad per wall, in its order. */
  function RoomQuads(b: Box): (qs: seq<seq<Vertex>>)
    ensures |qs| == |EmitOrder|
    ensures forall i :: 0 <= i < |qs| ==> qs[i] == Quad(EmitOrder[i], b)
  {
    [Quad(Back, b), Quad(Floor, b), Quad(Ceil, b), Quad(Left, b), Quad(Right, b)]
  }

  /** Every vertex the room emits lies on the plane of the wall it belongs
      to. */
  lemma {:induction false} RoomOnPlanes(b: Box)
    ensures forall i, p :: 0 <= i < |RoomQuads(b)| && p in RoomQuads(b)[i] ==> OnPlane(EmitOrder[i], b, p)
  {
    forall i, p | 0 <= i < |RoomQuads(b)| && p in RoomQuads(b)[i]
      ensures OnPlane(EmitOrder[i], b, p)
    {
      QuadOnFace(EmitOrder[i], b);
    }
  }

  /** The vertex lies on the wall's plane. */
  predicate OnPlane(f: Face, b: Box, p: Vertex)
  {
    match f
    case Back => p.z == -b.hd
    case Floor => p.y == b.hh
    case Ceil => p.y == -b.hh
    case Left => p.x == -b.hw
    case Right => p.x == b.hw
  }

  /** The vertex's two coordinates within the wall's plane. */
  function InPlane(f: Face, p: Vertex): (real, real)
  {
    match f
    case Back => (p.x, p.y)
    case Floor => (p.x, p.z)
    case Ceil => (p.x, p.z)
    case Left => (p.z, p.y)
    case Right => (p.z, p.y)
  }

  /** Half-extents of the wall along its two in-plane axes. */
  function Extents(f: Face, b: Box): (real, real)
  {
    match f
    case Back => (b.hw, b.hh)
    case Floor => (b.hw, b.hd)
    case Ceil => (b.hw, b.hd)
    case Left => (b.hd, b.hh)
    case Right => (b.hd, b.hh)
  }

  function Corners(e: (real, real)): set<(real, real)>
  {
    {(-e.0, -e.1), (e.0, -e.1), (e.0, e.1), (-e.0, e.1)}
  }

  /** Every wall's vertices lie on its plane and occupy the four corners of
      the box's face: the wall spans the full extents of the room. */
  lemma {:induction false} QuadOnFace(f: Face, b: Box)
    ensures forall p :: p in Quad(f, b) ==> OnPlane(f, b, p)
    ensures (set p | p in Quad(f, b) :: InPlane(f, p)) == Corners(Extents(f, b))
  {
    var q := Quad(f, b);
    FourPoints(f, q);
    FourCorners(f, b);
    forall p | p in q ensures OnPlane(f, b, p) {
      assert p == q[0] || p == q[1] || p == q[2] || p == q[3];
    }
  }

  /** The four vertices of a wall sit at the four corners of its face. */
  lemma FourCorners(f: Face, b: Box)
    ensures var q := Quad(f, b);
      {InPlane(f, q[0]), InPlane(f, q[1]), InPlane(f, q[2]), InPlane(f, q[3])} == Corners(Extents(f, b))
  {
    var q := Quad(f, b);
    var e := Extents(f, b);
    match f
    case Back =>
    case Floor =>
      assert {InPlane(f, q[0]), InPlane(f, q[1]), InPlane(f, q[2]), InPlane(f, q[3])}
        == {(-e.0, e.1), (e.0, e.1), (e.0, -e.1), (-e.0, -e.1)};
    case Ceil =>
    case Left =>
      assert {InPlane(f, q[0]), InPlane(f, q[1]), InPlane(f, q[2]), InPlane(f, q[3])}
        == {(e.0, -e.1), (-e.0, -e.1), (-e.0, e.1), (e.0, e.1)};
    case Right =>
  }

  /** The in-plane points of a four-vertex list are those of its four
      entries. */
  lemma FourPoints(f: Face, q: seq<Vertex>)
    requires |q| == 4
    ensures (set p | p in q :: InPlane(f, p)) == {InPlane(f, q[0]), InPlane(f, q[1]), InPlane(f, q[2]), InPlane(f, q[3])}
  {
    var s := set p | p in q :: InPlane(f, p);
    forall e | e in s ensures e in {InPlane(f, q[0]), InPlane(f, q[1]), InPlane(f, q[2]), InPlane(f, q[3])} {
      var p :| p in q && InPlane(f, p) == e;
    }
    assert q[0] in q && q[1] in q && q[2] in q && q[3] in q;
  }

  /** The back wall is mapped corner to corner onto the back rectangle:
      its left edge samples u0, its right edge u1, its top edge v0 and its
      bottom edge v1. */
  lemma BackCornerToCorner(b: Box)
    requires b.hw > 0.0 && b.hh > 0.0
    ensures forall p :: p in Quad(Back, b) ==>
      (p.u == UV(Back).u0 <==> p.x == -b.hw) && (p.u == UV(Back).u1 <==> p.x == b.hw) &&
      (p.v == UV(Back).v0 <==> p.y == -b.hh) && (p.v == UV(Back).v1 <==> p.y == b.hh)
  {
  }

  /** Floor, ceiling and side walls have no texture gradient along the
      depth: the floor samples only row v1 of its rectangle, the ceiling
      only row v0, the left wall only column u0, the right wall only u1. */
  lemma ConstantCoordinates(b: Box)
    ensures forall p :: p in Quad(Floor, b) ==> p.v == UV(Floor).v1
    ensures forall p :: p in Quad(Ceil, b) ==> p.v == UV(Ceil).v0
    ensures forall p :: p in Quad(Left, b) ==> p.u == UV(Left).u0
    ensures forall p :: p in Quad(Right, b) ==> p.u == UV(Right).u1
  {
  }

  /** Texture coordinates of a vertex measured inside its face's own cell,
      from (0,0) at the cell's top-left to (1,1) at its bottom-right. */
  function CellLocal(f: Face, p: Vertex): (real, real)
  {
    (3.0 * p.u - Col(f) as real, 3.0 * p.v - Row(f) as real)
  }

  /** Where a wall meets the back wall, both sample the same point of the
      image copy in their cells, so the texture is continuous across the
      seam. */
  lemma {:induction false} SeamContinuity(f: Face, b: Box)
    requires f != Back && b.hw > 0.0 && b.hh > 0.0
    ensures forall p, q :: p in Quad(f, b) && q in Quad(Back, b) && p.x == q.x && p.y == q.y && p.z == q.z ==>
      CellLocal(f, p) == CellLocal(Back, q)
  {
    var qs := Quad(f, b);
    var bs := Quad(Back, b);
    forall p, q | p in qs && q in bs && p.x == q.x && p.y == q.y && p.z == q.z
      ensures CellLocal(f, p) == CellLocal(Back, q)
    {
      assert p.z == -b.hd || p.z == b.hd;
    }
  }

  function Cross(a: (real, real, real), c: (real, real, real)): (real, real, real)
  {
    (a.1 * c.2 - a.2 * c.1, a.2 * c.0 - a.0 * c.2, a.0 * c.1 - a.1 * c.0)
  }

  function Edge(p: Vertex, q: Vertex): (real, real, real)
  {
    (q.x - p.x, q.y - p.y, q.z - p.z)
  }

  /** The winding normal of a quad, from its first two edges. */
  function Normal(q: seq<Vertex>): (real, real, real)
    requires |q| >= 3
  {
    Cross(Edge(q[0], q[1]), Edge(q[1], q[2]))
  }

  /** The direction from the wall into the room. */
  function Inward(f: Face): (real, real, real)
  {
    match f
    case Back => (0.0, 0.0, 1.0)
    case Floor => (0.0, -1.0, 0.0)
    case Ceil => (0.0, 1.0, 0.0)
    case Left => (1.0, 0.0, 0.0)
    case Right => (-1.0, 0.0, 0.0)
  }

  function Dot(a: (real, real, real), c: (real, real, real)): real
  {
    a.0 * c.0 + a.1 * c.1 + a.2 * c.2
  }

  /** The winding of the back and side walls faces into the room; that of
      the floor and the ceiling faces out of it. */
  lemma {:induction false} QuadWinding(b: Box)
    requires b.hw > 0.0 && b.hh > 0.0 && b.hd > 0.0
    ensures Dot(Normal(Quad(Back, b)), Inward(Back)) > 0.0
    ensures Dot(Normal(Quad(Left, b)), Inward(Left)) > 0.0
    ensures Dot(Normal(Quad(Right, b)), Inward(Right)) > 0.0
    ensures Dot(Normal(Quad(Floor, b)), Inward(Floor)) < 0.0
    ensures Dot(Normal(Quad(Ceil, b)), Inward(Ceil)) < 0.0
  {
    assert (2.0 * b.hw) * (2.0 * b.hh) > 0.0;
    assert (2.0 * b.hw) * (2.0 * b.hd) > 0.0;
    assert (2.0 * b.hd) * (2.0 * b.hh) > 0.0;
  }

  /** A room whose width and height are in the ratio imgW : imgH, as
      `RoomDims` guarantees, has a back wall quad in that ratio: the back
      wall keeps the image's aspect. */
  lemma BackWallAspect(d: Dims, imgW: real, imgH: real)
    requires d.roomW * imgH == d.roomH * imgW
    ensures var q := Quad(Back, HalfExtents(d));
      (q[1].x - q[0].x) * imgH == (q[2].y - q[1].y) * imgW
  {
    BackWallSize(d);
  }

  /** The back wall is roomW wide and roomH high. */
  lemma BackWallSize(d: Dims)
    ensures var q := Quad(Back, HalfExtents(d));
      q[1].x - q[0].x == d.roomW && q[2].y - q[1].y == d.roomH
  {
  }
}
