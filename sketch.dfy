/** The sketch's module state (the current image, the window size and the
    two buffers) and the callbacks that drive the core: setup, window
    resize, image upload and the per-frame draw. */
module Sketch {
  import opened Layout
  import opened UVMap
  import opened Room
  import opened Downscale
  import opened Buffers

  /** The image has a positive longer edge, the divisor of the atlas scale. */
  predicate HasExtent(img: Size)
  {
    img.width > 0 || img.height > 0
  }

  /** The atlas contents for an image: five letterboxed copies of the whole
      image, one per face cell, with the tile equal to the image. */
  function ImagePaints(img: Size): (ps: seq<Paint>)
    requires HasExtent(img)
    ensures |ps| == |PaintOrder|
    ensures forall i :: 0 <= i < |ps| ==>
      ps[i].dst == Cell(Col(PaintOrder[i]), Row(PaintOrder[i]), img.width as real, img.height as real)
      && ps[i].src == Rect(0.0, 0.0, img.width as real, img.height as real)
  {
    var tw, th := img.width as real, img.height as real;
    ShippedPaintsFillCells(tw, th);
    AtlasPaints(tw, th, Rect(0.0, 0.0, tw, th))
  }

  class RoomTool {
    var img: Size
    var windowWidth: nat
    var windowHeight: nat
    var atlas: AtlasBuffer?
    var room: RoomBuffer?

    /** The buffers are built for the current image and window: the atlas
        is three tiles by three of the image's size and holds exactly the
        five face paints, the room buffer has the window's size. */
    ghost predicate Built()
      reads this, atlas, room
      ensures Built() ==>
        && atlas != null && |atlas.paints| == |PaintOrder|
        && forall i :: 0 <= i < |PaintOrder| ==>
             atlas.paints[i].dst == Cell(Col(PaintOrder[i]), Row(PaintOrder[i]), img.width as real, img.height as real)
    {
      && atlas != null && room != null
      && HasExtent(img)
      && atlas.width == 3 * img.width && atlas.height == 3 * img.height
      && atlas.paints == ImagePaints(img)
      && room.width == windowWidth && room.height == windowHeight
    }

    /** Loading the default image and setting up the canvas build the
        buffers once. */
    constructor Setup(loaded: Size, ww: nat, wh: nat)
      requires HasExtent(loaded)
      ensures img == loaded && windowWidth == ww && windowHeight == wh
      ensures Built() && fresh(atlas) && fresh(room)
      ensures room.fill == Transparent && room.texture == null && room.shapes == [] && room.current == []
    {
      img := loaded;
      windowWidth, windowHeight := ww, wh;
      atlas, room := null, null;
      new;
      InitBuffers();
    }

    /** Allocates both buffers anew, clears the atlas and paints the image
        into the back, ceiling, floor, left and right cells. */
    method InitBuffers()
      requires HasExtent(img)
      modifies this
      ensures img == old(img) && windowWidth == old(windowWidth) && windowHeight == old(windowHeight)
      ensures Built() && fresh(atlas) && fresh(room)
      ensures atlas.paints == AsWrittenPaints(img.width as real, img.height as real,
                                              Rect(0.0, 0.0, img.width as real, img.height as real))
      ensures room.fill == Transparent && room.texture == null && room.shapes == [] && room.current == []
    {
      var tw := img.width as real;
      var th := img.height as real;

      var a := new AtlasBuffer(img.width * 3, img.height * 3);
      var r := new RoomBuffer(windowWidth, windowHeight);
      atlas, room := a, r;

      a.Clear();

      var sx, sy, sw, sh := 0.0, 0.0, img.width as real, img.height as real;
      var p := Place(tw, th, sw, sh);
      var dw, dh, ox, oy := p.dw, p.dh, p.ox, p.oy;

      a.Image(tw + ox, th + oy, dw, dh, sx, sy, sw, sh);
      a.Image(tw + ox, 0.0 + oy, dw, dh, sx, sy, sw, sh);
      a.Image(tw + ox, th * 2.0 + oy, dw, dh, sx, sy, sw, sh);
      a.Image(0.0 + ox, th + oy, dw, dh, sx, sy, sw, sh);
      a.Image(tw * 2.0 + ox, th + oy, dw, dh, sx, sy, sw, sh);

      ShippedPaintsFillCells(tw, th);
    }

    /** A new window size rebuilds both buffers. */
    method WindowResized(ww: nat, wh: nat)
      requires Built()
      modifies this
      ensures img == old(img) && windowWidth == ww && windowHeight == wh
      ensures Built() && fresh(atlas) && fresh(room)
      ensures room.fill == Transparent && room.texture == null && room.shapes == [] && room.current == []
    {
      windowWidth, windowHeight := ww, wh;
      InitBuffers();
    }

    /** An uploaded image replaces the current one, shrunk so that its
        longer edge is at most 960, and the buffers are rebuilt. */
    method ImageLoaded(loaded: Size)
      requires HasExtent(loaded)
      modifies this
      ensures img == Target(loaded.width, loaded.height)
      ensures windowWidth == old(windowWidth) && windowHeight == old(windowHeight)
      ensures Built() && fresh(atlas) && fresh(room)
      ensures room.fill == Transparent && room.texture == null && room.shapes == [] && room.current == []
    {
      img := loaded;
      img := Target(img.width, img.height);
      InitBuffers();
    }

    /** One frame: clears the room buffer to black, binds the atlas and
        emits the back, floor, ceiling, left and right quads of a room sized
        from the buffer and the image's aspect ratio. */
    method Draw()
      requires Built() && img.height > 0
      modifies room
      ensures Built()
      ensures room.shapes == RoomQuads(HalfExtents(RoomDims(room.width, room.height, img.width, img.height)))
      ensures room.fill == Gray(0) && room.texture == atlas && room.current == []
    {
      var r := room;
      r.Clear();
      r.Background(0);

      var d := RoomDims(r.width, r.height, img.width, img.height);
      r.Texture(atlas);

      var b := HalfExtents(d);
      EmitBack(r, b);
      EmitFloor(r, b);
      EmitCeil(r, b);
      EmitLeft(r, b);
      EmitRight(r, b);
    }
  }

  /** Emits BACK at z = -hd: the whole back wall, mapped corner to corner. */
  method EmitBack(r: RoomBuffer, b: Box)
    modifies r
    ensures r.shapes == old(r.shapes) + [Quad(Back, b)] && r.current == []
    ensures r.fill == old(r.fill) && r.texture == old(r.texture)
  {
    var hw, hh, hd := b.hw, b.hh, b.hd;
    var back := UV(Back);
    r.BeginShape();
    r.AddVertex(-hw, -hh, -hd, back.u0, back.v0);
    r.AddVertex(hw, -hh, -hd, back.u1, back.v0);
    r.AddVertex(hw, hh, -hd, back.u1, back.v1);
    r.AddVertex(-hw, hh, -hd, back.u0, back.v1);
    assert r.current == Quad(Back, b);
    r.EndShape();
  }

  /** Emits FLOOR at y = +hh, across the depth, with v held at the back seam. */
  method EmitFloor(r: RoomBuffer, b: Box)
    modifies r
    ensures r.shapes == old(r.shapes) + [Quad(Floor, b)] && r.current == []
    ensures r.fill == old(r.fill) && r.texture == old(r.texture)
  {
    var hw, hh, hd := b.hw, b.hh, b.hd;
    var floor := UV(Floor);
    r.BeginShape();
    r.AddVertex(-hw, hh, hd, floor.u0, floor.v1);
    r.AddVertex(hw, hh, hd, floor.u1, floor.v1);
    r.AddVertex(hw, hh, -hd, floor.u1, floor.v1);
    r.AddVertex(-hw, hh, -hd, floor.u0, floor.v1);
    assert r.current == Quad(Floor, b);
    r.EndShape();
  }

  /** Emits CEIL at y = -hh, across the depth, with v held at the back seam. */
  method EmitCeil(r: RoomBuffer, b: Box)
    modifies r
    ensures r.shapes == old(r.shapes) + [Quad(Ceil, b)] && r.current == []
    ensures r.fill == old(r.fill) && r.texture == old(r.texture)
  {
    var hw, hh, hd := b.hw, b.hh, b.hd;
    var ceil := UV(Ceil);
    r.BeginShape();
    r.AddVertex(-hw, -hh, -hd, ceil.u0, ceil.v0);
    r.AddVertex(hw, -hh, -hd, ceil.u1, ceil.v0);
    r.AddVertex(hw, -hh, hd, ceil.u1, ceil.v0);
    r.AddVertex(-hw, -hh, hd, ceil.u0, ceil.v0);
    assert r.current == Quad(Ceil, b);
    r.EndShape();
  }

  /** Emits LEFT at x = -hw, across the depth, with u held at the back seam. */
  method EmitLeft(r: RoomBuffer, b: Box)
    modifies r
    ensures r.shapes == old(r.shapes) + [Quad(Left, b)] && r.current == []
    ensures r.fill == old(r.fill) && r.texture == old(r.texture)
  {
    var hw, hh, hd := b.hw, b.hh, b.hd;
    var left := UV(Left);
    r.BeginShape();
    r.AddVertex(-hw, -hh, hd, left.u0, left.v0);
    r.AddVertex(-hw, -hh, -hd, left.u0, left.v0);
    r.AddVertex(-hw, hh, -hd, left.u0, left.v1);
    r.AddVertex(-hw, hh, hd, left.u0, left.v1);
    assert r.current == Quad(Left, b);
    r.EndShape();
  }

  /** Emits RIGHT at x = +hw, across the depth, with u held at the back seam. */
  method EmitRight(r: RoomBuffer, b: Box)
    modifies r
    ensures r.shapes == old(r.shapes) + [Quad(Right, b)] && r.current == []
    ensures r.fill == old(r.fill) && r.texture == old(r.texture)
  {
    var hw, hh, hd := b.hw, b.hh, b.hd;
    var right := UV(Right);
    r.BeginShape();
    r.AddVertex(hw, -hh, -hd, right.u1, right.v0);
    r.AddVertex(hw, -hh, hd, right.u1, right.v0);
    r.AddVertex(hw, hh, hd, right.u1, right.v1);
    r.AddVertex(hw, hh, -hd, right.u1, right.v1);
    assert r.current == Quad(Right, b);
    r.EndShape();
  }
}
