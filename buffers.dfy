/** The two off-screen graphics buffers of the sketch, as far as the core
    uses them: the atlas buffer records the rectangles painted into it, the
    room buffer its backdrop, its bound texture and the shapes drawn into
    it. Pixels themselves are the library's business. */
module Buffers {
  import opened Layout
  import opened Room

  /** The atlas buffer: a fixed size and the paints issued since it was
      last cleared, in order. No paints means every pixel is transparent. */
  class AtlasBuffer {
    const width: nat
    const height: nat
    var paints: seq<Paint>

    /** A new buffer is blank. */
    constructor (w: nat, h: nat)
      ensures width == w && height == h && paints == []
    {
      width, height := w, h;
      paints := [];
    }

    /** Clearing makes every pixel transparent again. */
    method Clear()
      modifies this
      ensures paints == []
    {
      paints := [];
    }

    /** Paints the crop (sx, sy, sw, sh) of the image, resampled, into the
        rectangle (dx, dy, dw, dh). */
    method Image(dx: real, dy: real, dw: real, dh: real, sx: real, sy: real, sw: real, sh: real)
      modifies this
      ensures paints == old(paints) + [Paint(Rect(dx, dy, dw, dh), Rect(sx, sy, sw, sh))]
    {
      paints := paints + [Paint(Rect(dx, dy, dw, dh), Rect(sx, sy, sw, sh))];
    }
  }

  /** What lies under the drawn shapes: nothing, or a solid grey level. */
  datatype Fill = Transparent | Gray(level: int)

  /** The 3-D room buffer: backdrop, bound texture, the shapes completed so
      far and the vertices of the shape being built. */
  class RoomBuffer {
    const width: nat
    const height: nat
    var fill: Fill
    var texture: AtlasBuffer?
    var shapes: seq<seq<Vertex>>
    var current: seq<Vertex>

    /** A new buffer is transparent, has no texture and holds no shapes. */
    constructor (w: nat, h: nat)
      ensures width == w && height == h
      ensures fill == Transparent && texture == null && shapes == [] && current == []
    {
      width, height := w, h;
      fill, texture, shapes, current := Transparent, null, [], [];
    }

    /** Clearing erases everything drawn and leaves the buffer transparent. */
    method Clear()
      modifies this
      ensures fill == Transparent && shapes == []
      ensures texture == old(texture) && current == old(current)
    {
      fill, shapes := Transparent, [];
    }

    /** A background covers everything drawn with a solid grey. */
    method Background(level: int)
      modifies this
      ensures fill == Gray(level) && shapes == []
      ensures texture == old(texture) && current == old(current)
    {
      fill, shapes := Gray(level), [];
    }

    /** Binds the atlas as the texture of the shapes that follow. */
    method Texture(a: AtlasBuffer)
      modifies this
      ensures texture == a
      ensures fill == old(fill) && shapes == old(shapes) && current == old(current)
    {
      texture := a;
    }

    /** Starts a new shape. */
    method BeginShape()
      modifies this
      ensures current == []
      ensures fill == old(fill) && texture == old(texture) && shapes == old(shapes)
    {
      current := [];
    }

    /** Adds a vertex at (x, y, z) with texture coordinates (u, v) to the
        shape being built. */
    method AddVertex(x: real, y: real, z: real, u: real, v: real)
      modifies this
      ensures current == old(current) + [Vertex(x, y, z, u, v)]
      ensures fill == old(fill) && texture == old(texture) && shapes == old(shapes)
    {
      current := current + [Vertex(x, y, z, u, v)];
    }

    /** Completes the shape being built. */
    method EndShape()
      modifies this
      ensures shapes == old(shapes) + [old(current)] && current == []
      ensures fill == old(fill) && texture == old(texture)
    {
      shapes, current := shapes + [current], [];
    }
  }
}
