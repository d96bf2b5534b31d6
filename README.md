# room_tool: atlas layout and room geometry

room_tool is a p5.js sketch that turns one photo into a "room illusion": the
image is painted five times into a 3×3 texture atlas (back, ceiling, floor,
left and right cells), and every frame a five-walled box is drawn in
perspective with each wall sampling its own cell of that atlas. Uploaded
images are first shrunk so that their longer edge is at most 960 pixels.

This project models that core of `sketch.js` in Dafny and proves what it
promises:

- `layout.dfy` (module `Layout`): the 3×3 grid of tiles, the uniform scale
  and letterbox offsets `initBuffers` computes, and the five rectangles it
  paints. The atlas is modelled as the list of paints issued into it
  (destination rectangle and crop rectangle), not as pixels.
- `uv.dfy` (module `UVMap`): the constant table of texture rectangles used
  by `draw`.
- `room.dfy` (module `Room`): the responsive room size, its half-extents and
  the four textured vertices of each wall.
- `downscale.dfy` (module `Downscale`): the size an upload is shrunk to.
- `buffers.dfy` (module `Buffers`): the two off-screen graphics buffers as
  classes whose methods change them in place: the atlas buffer records its
  paints, the room buffer its backdrop, bound texture and emitted shapes.
- `sketch.dfy` (module `Sketch`): the sketch's globals (`img`, the window
  size, `atlas`, `room`) as the class `RoomTool`, with the setup, window
  resize, upload and per-frame `draw` callbacks as its methods. `InitBuffers`
  and `Draw` issue the same buffer calls, in the same order, as the source.
- `arith.dfy` (module `Arith`): `Max`/`Min` on reals and small facts about
  multiplication and division used by the proofs.

Numbers are exact `real`s; JavaScript's `Math.round` is `floor(x + 1/2)`.

Two observations proved along the way. The floor, ceiling and side walls
hold one texture coordinate constant across the depth, and that constant
is the row or column of the image copy which the back wall shows along
their shared 3-D edge: where a wall meets the back wall, both sample the
same point of the image (`Room.SeamContinuity`). The vertex order winds
the back and side walls towards the inside of the room and the floor and
ceiling away from it (`Room.QuadWinding`); the mixed winding is harmless
because the sketch enables no face culling, so all five walls are drawn.

`initBuffers` always allocates two new buffers (sketch.js:47, 50), there is
no guard for an image of zero size, and there is no live video feed.

## Model

| member | source | states |
|---|---|---|
| Layout.Col | sketch.js:76-80 | the column of each face's cell (back, ceiling and floor 1, left 0, right 2) lies in the 3×3 grid; `FaceCellsDistinct` states that the five cells differ |
| Layout.Row | sketch.js:76-80 | the row of each face's cell (ceiling 0, back, left and right 1, floor 2) lies in the 3×3 grid |
| Layout.Centred | sketch.js:69-74 | the copy at scale s keeps the crop's aspect and is centred in its tile (2·ox + dw = tw, 2·oy + dh = th) |
| Layout.Paints | sketch.js:76-80 | the five destinations in paint order, all with the crop as source and the placement's size; `PaintsDifferOnlyInCell` states their origins |
| Layout.AsWrittenPaints | sketch.js:65-80 | the paints with the placement as written: five undistorted copies of the crop whose longer edge is the tile's |
| Layout.AtlasPaints | sketch.js:65-80 | the paints with the corrected placement: five undistorted copies no larger than the tile; `AtlasPaintsLayout` states their layout |
| Layout.CellsDisjoint | sketch.js:76-80 | two different cells of the grid share no interior point |
| Layout.Place | sketch.js:65-74 | the placement as written keeps the crop's aspect ratio (dw·sh = dh·sw), gives it the tile's longer edge, and centres it (2·ox + dw = tw, 2·oy + dh = th) |
| Layout.FitPlace | sketch.js:65-74 | the corrected placement keeps the aspect ratio, is centred, stays inside the tile and fills it along one axis |
| Layout.PaintsDifferOnlyInCell | sketch.js:76-80 | the five paints share size, offsets and crop and differ only in the origin (col·tw, row·th) of their face's cell, back (1,1), ceiling (1,0), floor (1,2), left (0,1), right (2,1) |
| Layout.PaintsInCells | sketch.js:72-80 | a placement that fits its tile keeps every paint inside its face's cell |
| Layout.FaceCellsDistinct | sketch.js:76-80 | the five faces are painted into five different cells |
| Layout.AtlasPaintsLayout | sketch.js:47-80 | the five painted rectangles are pairwise disjoint, lie inside the 3·tw × 3·th atlas, and do not touch the four corner cells |
| Layout.ShippedPlacement | sketch.js:61-74 | with the full-image crop and tile = image, s = 1, dw = tw, dh = th, ox = oy = 0, for both placements |
| Layout.ShippedPaintsFillCells | sketch.js:44-80 | in the shipped configuration each paint is exactly its face's cell and the paints as written equal the corrected ones |
| Layout.PlaceFitsIffLetterboxed | sketch.js:65-74 | the placement as written fits its tile if and only if it equals the corrected placement |
| Layout.PlaceSpillsIntoCorner | sketch.js:65-80 | a 600×600 crop in a 600×800 tile is drawn 800×800 at offset −100 and the ceiling copy overlaps corner cell (0,0) |
| UVMap.UV | sketch.js:121-130 | every face's texture rectangle is 1/3 wide and 1/3 high and lies within the unit square |
| UVMap.UVDisjoint | sketch.js:121-130 | the texture rectangles of two different faces share no interior point |
| UVMap.UVIsPaintedCell | sketch.js:121-130 | each face's texture rectangle is the normalised rectangle of that face's atlas cell |
| UVMap.UVMatchesPaints | sketch.js:76-80 | in the shipped configuration the i-th paint's destination, normalised by the atlas size, is the texture rectangle of the i-th painted face |
| Room.HalfExtents | sketch.js:115-117 | the box centred on the origin spans exactly roomW × roomH × roomD |
| Room.RoomQuads | sketch.js:137-174 | what a frame emits: the quad of each wall in the order back, floor, ceiling, left, right |
| Room.RoomOnPlanes | sketch.js:137-174 | every vertex a frame emits lies on the plane of its wall |
| Room.RoomDims | sketch.js:95-105 | roomH = 1.25·S, roomD = 1.6·S with S = min(w, h), and roomW·imgH = roomH·imgW |
| Room.RoomDimsFullHd | sketch.js:95-105 | a 1920×1080 buffer and an 800×600 image give an 1800 × 1350 × 1728 room |
| Room.Quad | sketch.js:137-174 | every wall is emitted as four vertices |
| Room.QuadOnFace | sketch.js:115-174 | every vertex of a wall lies on its plane (back z = −hd, floor y = +hh, ceiling y = −hh, left x = −hw, right x = +hw) and the four vertices occupy the four corners of that face of the box |
| Room.FourCorners | sketch.js:137-174 | the in-plane positions of a wall's four vertices are exactly the four corners (±, ±) of its face |
| Room.BackCornerToCorner | sketch.js:137-142 | the back wall samples u0 exactly on its left edge, u1 on its right edge, v0 on its top edge and v1 on its bottom edge |
| Room.ConstantCoordinates | sketch.js:144-174 | floor vertices all have v = floor.v1, ceiling vertices v = ceil.v0, left vertices u = left.u0, right vertices u = right.u1 |
| Room.SeamContinuity | sketch.js:136-174 | at each vertex a wall shares with the back wall, both sample the same point of the image within their cells |
| Room.QuadWinding | sketch.js:137-174 | the back, left and right quads wind towards the room's inside; the floor and ceiling quads wind away from it |
| Room.BackWallAspect | sketch.js:97-102 | a room whose width and height are in the image's ratio has a back wall quad in that ratio |
| Room.BackWallSize | sketch.js:115-142 | the back wall quad is roomW wide and roomH high |
| Downscale.Round | sketch.js:25-26 | the rounded value is within half a unit of the exact one |
| Downscale.Target | sketch.js:20-28 | a size whose longer edge is at most 960 is unchanged; otherwise the new longer edge is exactly 960 |
| Downscale.ScaledEdges | sketch.js:21-26 | both new edges are between 0 and 960 and the larger is 960 |
| Downscale.TargetNearProportional | sketch.js:24-26 | each new edge is within half a pixel of the exactly scaled edge |
| Downscale.TargetKeepsOrientation | sketch.js:20-28 | a landscape image stays landscape and a portrait one portrait |
| Downscale.TargetIdempotent | sketch.js:20-28 | downscaling a downscaled size changes nothing |
| Downscale.TargetPositiveIff | sketch.js:20-28 | both new edges are positive exactly when both old ones are and the longer is at most 1920 times the shorter |
| Downscale.TargetFlattensStrip | sketch.js:24-27 | a 2000×1 image becomes 960×0 |
| Buffers.AtlasBuffer.constructor | sketch.js:47 | a new atlas buffer has the given size and no paints |
| Buffers.AtlasBuffer.Clear | sketch.js:56 | clearing removes every paint |
| Buffers.AtlasBuffer.Image | sketch.js:76-80 | a paint is appended after the earlier ones |
| Buffers.RoomBuffer.constructor | sketch.js:50 | a new room buffer has the window's size, is transparent, has no texture and no shapes |
| Buffers.RoomBuffer.Clear | sketch.js:88 | clearing erases the shapes and makes the buffer transparent |
| Buffers.RoomBuffer.Background | sketch.js:89 | a background erases the shapes and fills with the grey level |
| Buffers.RoomBuffer.Texture | sketch.js:113 | binds the atlas, nothing else changes |
| Buffers.RoomBuffer.BeginShape | sketch.js:137 | starts an empty shape, nothing else changes |
| Buffers.RoomBuffer.AddVertex | sketch.js:138 | appends the vertex to the current shape |
| Buffers.RoomBuffer.EndShape | sketch.js:142 | appends the current shape to the drawn shapes |
| Sketch.ImagePaints | sketch.js:44-80 | the atlas contents for an image: five copies of the whole image, each exactly filling its face's cell |
| Sketch.RoomTool.Built | sketch.js:42-85 | the state `initBuffers` leaves: an atlas of 3·tw × 3·th holding the five face paints, each exactly its cell, and a room buffer of the window's size |
| Sketch.RoomTool.Setup | sketch.js:10-13 | after setup the buffers are built for the loaded image and the window, and the room buffer is blank |
| Sketch.RoomTool.InitBuffers | sketch.js:42-85 | both buffers are new, the atlas is 3·tw × 3·th and holds exactly the five paints of the placement as written (equal to the corrected layout for the full-image crop), the room buffer is blank and has the window's size |
| Sketch.RoomTool.WindowResized | sketch.js:37-40 | the new window size is recorded, the buffers are rebuilt for it and the room buffer is blank |
| Sketch.RoomTool.ImageLoaded | sketch.js:16-31 | the image becomes the downscaled upload, the buffers are rebuilt for it and the room buffer is blank |
| Sketch.RoomTool.Draw | sketch.js:87-176 | after a frame the room buffer is filled black, has the atlas bound and holds exactly the back, floor, ceiling, left and right quads of the room sized from the buffer and the image; the atlas is unchanged |
| Sketch.EmitBack | sketch.js:136-142 | appends the back wall's quad |
| Sketch.EmitFloor | sketch.js:144-150 | appends the floor's quad |
| Sketch.EmitCeil | sketch.js:152-158 | appends the ceiling's quad |
| Sketch.EmitLeft | sketch.js:160-166 | appends the left wall's quad |
| Sketch.EmitRight | sketch.js:168-174 | appends the right wall's quad |

## Left out

- The p5.js calls `createCanvas`, `resizeCanvas`, `pixelDensity`, `noStroke`, `textureMode(NORMAL)`, `loadImage`, `createFileInput` and its file-type check, and `fileInput.id`: library, DOM and I/O; the model receives the loaded image's size as a parameter.
- Pixel resampling inside `atlas.image` and `img.resize`, and the final composite `image(room, 0, 0, width, height)` (sketch.js:178-179): image processing done by the library. `img.resize(nw, nh)` is modelled as giving the image exactly the size (nw, nh).
- The projection and camera (sketch.js:108-111): `camZ` needs `tan`, a transcendental floating-point computation, and `perspective`/`camera` are GPU state. `push`, `translate(0, 0, 0)` and `pop` (sketch.js:133-134, 176) leave the transform unchanged and are not modelled.
- IEEE floating point: all arithmetic is on exact reals, so 1/3 is exact and `Math.round` acts on the exact product.
- Sketch.RoomTool.Draw: requires an image of positive height; the source divides by `img.height` unguarded (sketch.js:98) and would draw with an infinite or NaN aspect, which reals cannot express. An upload flatter than 1920:1 reaches that state: a 2000×1 image is resized to 960×0 (`Downscale.TargetFlattensStrip`, sketch.js:25-27), after which every frame divides by zero at sketch.js:98; the model proves `Built()` in that state and excludes the frame.
- Sketch.RoomTool.InitBuffers: requires an image with a positive longer edge; for a 0×0 image the source's scale is 0/0 (NaN).
- The five quads are emitted by helpers `Sketch.EmitBack` … `Sketch.EmitRight`, one per commented block of `draw`, so that each block's proof stays small; the calls and their order are those of the source.
- Live-feed coordination, "not ready" guards and reuse of an atlas of the right size are not in the code and are not modelled.

## Findings

| source | as written | input that shows it | evidently intended | confidence | as-written member | corrected member |
|---|---|---|---|---|---|---|
| sketch.js:65-74 | the scale is max(tw, th) / max(sw, sh), which can make the copy larger than its tile when the crop's shape differs from the tile's, giving negative offsets | tile 600×800 with a 600×600 crop: s = 4/3, the copy is 800×800 at ox = −100, and the ceiling copy at (500, 0) reaches into corner cell (0,0) | a letterboxed fit, as the comment at sketch.js:72 describes: the largest uniform scale that keeps the copy undistorted and inside its tile | medium, not executed; latent with the shipped full-image crop, where both placements coincide | Layout.PlaceSpillsIntoCorner | Layout.FitPlace |
