# WebGL teaching demos: geometry bookkeeping and interaction state

This project models the parts of a set of WebGL teaching demos that do not
depend on the GPU. It covers:

- the loops that expand the shared unit-cube lookup tables into flat vertex
  lists, with one normal, colour or texture coordinate per vertex;
- the flat-normal generator `makeFlatNormals` of the lighting demo;
- `loadShape`, the bookkeeping that appends a shape to the global buffers
  and remembers where it starts, how long it is and which primitive draws it;
- the mouse-drag and spin state machines of the two lighting demos, the
  `animate` / key handler of the texturing demo, and the resize and
  mouse/touch handlers of the shader playground;
- the checkerboard loop, the direction button, the rotation update and the
  colour menu of the first lab.

Modules follow the program: `Geometry` holds the shared value types.
`CubeData` holds the cube tables and expansion loops that several demos
declare with identical literals. `FlatNormals` holds `makeFlatNormals`.
`CubeScene` holds the shape records, buffers and mouse controls that LE2 and
L4D2 share. Then there is one module per demo: `LE2`, `L4D2`, `Boxes`,
`Lab6Tiled`, `LE3` and `Lab1Exercise`.

The demos' global variables become the fields of a `Scene`-like class per
demo. Event handlers become methods with `modifies` clauses that state the
whole new state. The partly evaluated script top level becomes the class
constructor. Numbers are exact reals. The vector library (`subtract`,
`cross`, `normalize`) is a parameter `VecLib`, about which nothing is
assumed unless a lemma says so. The matrix library's results are
unevaluated terms (`Mat`).

## Model

| member | source | states |
|---|---|---|
| CubeData.TablesWellFormed | Lab4/L4D2.js:27-57 | the corner table has 8 entries, the solid and wire lookups 36 and 30, and every lookup index is below 8, so expansion never reads past the table |
| CubeData.SolidFacesShareDiagonal | Lab4/LE2.js:39-46 | each solid face is two triangles that reuse two lookups; those two corners are opposite corners of the face (they differ in two coordinates), and every other side of both triangles is a cube edge (one coordinate differs) |
| CubeData.FaceDirectionsOutward | Lab4/L4D2.js:50-57 | every vertex of solid face `i/6` lies half a unit out along that face's listed normal, so the precomputed normals point outward from their own face |
| CubeData.WireFacesClosed | Lab4/L4D2.js:40-47 | every five-index wire face ends at the corner it starts at |
| CubeData.ExpandLookups | Lab6Exercise_sam/Lab6_tiled.js:53-57 | the result expands the lookup table: one entry per lookup, `points[i] == cubeVerts[lookups[i]]` |
| CubeData.ExpandWithConstant | Lab4/L4D2.js:59-64 | both lists have one entry per lookup; the points expand the table and every attribute is the given constant |
| CubeData.ExpandPerFace | Lab4/L4D2.js:66-77 | vertex `i` gets `faceTable[i/6]`, reads stay inside the table, and the face counter ends at `|lookups|/6` (6 for the cube) |
| FlatNormals.FaceNormal | Lab4/LE2.js:88-94 | the per-triangle normal, computed from the x, y, z of the three vertices only, is a unit vector whenever `normalize` returns unit vectors |
| FlatNormals.TriangleNormal | Lab4/LE2.js:88-90 | the normal of the triangle that starts at `triangles[i]` is a unit vector whenever `normalize` returns unit vectors |
| FlatNormals.FlatNormalsOf | Lab4/LE2.js:82-99 | the reference definition of the array after the call keeps the array's length; its contents are pinned down by the lemmas below |
| FlatNormals.RejectsPartialTriangle | Lab4/LE2.js:83-86 | a count that is not a multiple of 3 leaves the normals untouched |
| FlatNormals.EmptyRangeWritesNothing | Lab4/LE2.js:87 | an empty range writes nothing |
| FlatNormals.OutsideUnchanged | Lab4/LE2.js:87-98 | entries outside `[start, start+num)` keep their values |
| FlatNormals.TriangleSlotsShareNormal | Lab4/LE2.js:87-97 | for `i = start + 3k` in range, slots `i`, `i+1`, `i+2` all get the normal computed from vertices `i`, `i+1`, `i+2` |
| FlatNormals.WrittenNormalsAreUnit | Lab4/LE2.js:78-80 | if `normalize` returns unit vectors, every entry of the range is unit length (the documented postcondition) |
| FlatNormals.FaceNormalIgnoresW | Lab4/LE2.js:88-94 | the normal depends only on the x, y, z of the three vertices, never on w |
| FlatNormals.Idempotent | Lab4/LE2.js:82-99 | running the generator again over the same range and vertices changes nothing |
| FlatNormals.ExtendByTriangle | Lab4/LE2.js:87-97 | covering one more triangle changes exactly that triangle's three slots |
| FlatNormals.MakeFlatNormals | Lab4/LE2.js:82-99 | warns exactly when `num % 3 != 0` and then writes nothing; otherwise the array becomes the reference result; `triangles` is unchanged |
| CubeScene.LitShape.constructor | Lab4/LE2.js:22 | a fresh record is empty: no points or normals, start 0, size 0, type POINTS |
| CubeScene.LitBuffers.constructor | Lab4/LE2.js:104-105 | both global buffers start empty |
| CubeScene.LitBuffers.LoadShape | Lab4/LE2.js:106-112 | start is the old buffer length, both buffers get the shape's arrays appended, the size is the shape's point count, the type is recorded, and the new range holds exactly the shape's points |
| CubeScene.CubeControls.constructor | Lab4/LE2.js:131-132 | not dragging, animating, identity rotation, both spin angles 0 |
| CubeScene.CubeControls.StartDrag | Lab4/LE2.js:355-360 | the pointer is stored, dragging starts and the spin stops; the rotation is untouched |
| CubeScene.CubeControls.MoveDrag | Lab4/LE2.js:362-374 | only while dragging, the rotation is premultiplied by x then y rotations of the pointer movement and the pointer is stored; the flags never change |
| CubeScene.CubeControls.EndDrag | Lab4/LE2.js:376-378 | only `motion` changes, to false |
| CubeScene.CubeControls.ResetCube | Lab4/L4D2.js:300-302 | only `animate` changes, to true |
| CubeScene.CubeControls.Spin | Lab4/L4D2.js:266-271 | only while animating, the rotation is rebuilt from the current angles, which then advance by 0.8 and 2 degrees; the flags and pointer never change |
| LE2.Scene.constructor | Lab4/LE2.js:50-58 | the solid cube's 36 points expand the table and its 36 normals are the flat normals of its triangles, computed over placeholder zeros |
| LE2.Scene.Init | Lab4/LE2.js:166 | after the single load the cube occupies `[0, 36)` of both buffers as TRIANGLES |
| LE2.Scene.Render | Lab4/LE2.js:320-351 | the cube's recorded range is drawn, the spin block runs, and a next frame is requested exactly when animating |
| LE2.Scene.MoveDrag | Lab4/LE2.js:362-374 | the drag step, with a frame request exactly when the drag applied |
| LE2.Scene.ResetCube | Lab4/LE2.js:380-384 | the spin resumes and a frame is always requested; only `animate` changes |
| L4D2.Scene.constructor | Lab4/L4D2.js:59-77 | the wire cube gets 30 expanded points with the fake normal `(0,0,1)`; solid vertex `i` gets `normalsList[i/6]`; `faceNum` ends at 6 |
| L4D2.Scene.Init | Lab4/L4D2.js:144-145 | the wire cube occupies `[0, 30)` as LINE_STRIP, the solid cube `[30, 66)` as TRIANGLES, and both buffers have 66 entries |
| L4D2.Scene.Render | Lab4/L4D2.js:249-273 | the solid cube's recorded range is drawn and the spin block runs |
| Boxes.ColorShape.constructor | Lab3/boxes.js:20-23 | a fresh record is empty: no points or colours, start 0, size 0, type POINTS |
| Boxes.ColorBuffers.constructor | Lab3/boxes.js:125-126 | both global buffers start empty |
| Boxes.ColorBuffers.LoadShape | Lab3/boxes.js:131-139 | as the lighting demos' load, with the size computed as new length minus start, which equals the shape's point count |
| Boxes.Scene.constructor | Lab3/boxes.js:49-122 | the axes come from their literals, both wire cubes expand the table in white and blue, solid vertex `i` gets `colorList[i/6]`, and `colorNum` ends at 6 |
| Boxes.Scene.RenderDraws | Lab3/boxes.js:250-279 | `render` issues three draw calls, the axes, the white cube and the blue cube in that order, each over its shape's recorded type and range; the solid cube is not drawn |
| Boxes.Scene.Init | Lab3/boxes.js:167-170 | the four loads give `[0,30)`, `[30,60)`, `[60,96)`, `[96,102)`; render then draws `(LINES, 96, 6)`, `(LINE_STRIP, 0, 30)`, `(LINE_STRIP, 30, 30)`, and each drawn range of both buffers holds exactly that shape's points and colours; the shapes' own arrays are kept |
| Lab6Tiled.NormalsPerFace | Lab6Exercise_sam/Lab6_tiled.js:59-72 | one normal per drawn vertex, and vertex `i` has the direction of face `i/6` (front, right, back, left, up, down) |
| Lab6Tiled.TexCoordsRepeatPerFace | Lab6Exercise_sam/Lab6_tiled.js:74-96 | one (s, t) pair per vertex, and every face repeats the same twelve numbers, tiling it three times each way |
| Lab6Tiled.KeyOf | Lab6Exercise_sam/Lab6_tiled.js:379-380 | `String.fromCharCode` keeps the key code modulo 2^16: the character code is below 2^16, equals the key code when that is below 2^16, and differs from it by a multiple of 2^16 |
| Lab6Tiled.AnimAfterKey | Lab6Exercise_sam/Lab6_tiled.js:423-426 | key "A" flips the animation flag and every other key keeps it |
| Lab6Tiled.TextureForKey | Lab6Exercise_sam/Lab6_tiled.js:377-421 | a texture reload happens exactly for keys "1", "2", "3" |
| Lab6Tiled.ToggleTwiceRestores | Lab6Exercise_sam/Lab6_tiled.js:423-426 | pressing "A" twice restores the flag |
| Lab6Tiled.NumberKeysOnlyReloadTexture | Lab6Exercise_sam/Lab6_tiled.js:382-426 | a key that reloads a texture leaves the animation flag alone |
| Lab6Tiled.Scene.constructor | Lab6Exercise_sam/Lab6_tiled.js:53-57 | the 36 points expand the lookup table; it also sets the initial globals of lines 146-148 (no rotation, animation off, the clock at the load time) and the image `pic1` that `setUpTextures` loads at line 186 |
| Lab6Tiled.Scene.Animate | Lab6Exercise_sam/Lab6_tiled.js:356-370 | the clock always advances to the current time; only while animating, all three angles turn by the same 60 degrees per elapsed second; then `[0, 36)` is drawn as TRIANGLES |
| Lab6Tiled.Scene.HandleKeyDown | Lab6Exercise_sam/Lab6_tiled.js:377-427 | the flag follows `AnimAfterKey`, the reloaded image follows `TextureForKey`, and the angles and clock are untouched |
| LE3.Quad2d | Lab4/LE3.js:16-19 | six vertices: the triangles `p1, p2, p4` and `p4, p2, p3` |
| LE3.QuadSharesDiagonal | Lab4/LE3.js:17 | for distinct corners, the two triangles share exactly `p2` and `p4`, and `p1` and `p3` each belong to one triangle only |
| LE3.QuadAreaSplits | Lab4/LE3.js:16-19 | the two triangles' signed areas add up to the quadrilateral's shoelace area |
| LE3.ScreenTrianglesCounterclockwise | Lab4/LE3.js:14 | `screen` has 6 vertices in two counterclockwise triangles of area 2, whose areas add up to the clip square's 4 |
| LE3.ScreenCoversClipSquare | Lab4/LE3.js:13-14 | a point is in one of the two triangles if and only if it is in the clip square `[-1, 1] x [-1, 1]`, and a point in both lies on the shared diagonal, so the two triangles cover the whole canvas without overlapping |
| LE3.ShaderPlay.Resize | Lab4/LE3.js:91-107 | changes happen exactly when the buffer size differs from the displayed size; afterwards they agree; when they differed, the buffer takes the displayed size and the viewport is reset to it; a call on a settled canvas changes nothing; the displayed size and the pointer are never changed |
| LE3.ShaderPlay.constructor | Lab4/LE3.js:21-71 | after the resize the canvas is settled, the start time is a minute before now, and the pointer is at the canvas centre, not dragging |
| LE3.ShaderPlay.Render | Lab4/LE3.js:73-87 | resizes as `Resize` does (displayed size kept; buffer size and viewport unchanged on a settled canvas, otherwise the viewport is reset to the new size), sends the seconds since the fudged start (at least 60 once the load time is reached) and draws `screen.length` = 6 vertices |
| LE3.ShaderPlay.StartDrag | Lab4/LE3.js:111-118 | stores the pointer with y flipped (`clientHeight - clientY`), sends it to `iMouse` and starts dragging |
| LE3.ShaderPlay.MoveDrag | Lab4/LE3.js:120-128 | stores and sends the flipped pointer only while dragging |
| LE3.ShaderPlay.EndDrag | Lab4/LE3.js:130-133 | stops dragging and keeps the last position |
| LE3.ShaderPlay.StartTouch | Lab4/LE3.js:137-146 | the first changed touch acts as a mouse press |
| LE3.ShaderPlay.EndTouch | Lab4/LE3.js:148-154 | stops dragging without reading the touches |
| LE3.ShaderPlay.MoveTouch | Lab4/LE3.js:156-166 | while dragging, the first changed touch acts as a mouse move |
| Lab1Exercise.LookupColor | Lab1/Lab1Exercise.js:31-40 | a menu value yields a colour exactly when it names an entry of the table (then that entry's colour); every other value is treated as absent |
| Lab1Exercise.ColorTableDistinct | Lab1/Lab1Exercise.js:10-17 | the table has six names, no two with the same colour, all opaque |
| Lab1Exercise.BoardSquare | Lab1/Lab1Exercise.js:151-154 | the square for counter `k` lies on the 21 by 21 board |
| Lab1Exercise.ColourByParity | Lab1/Lab1Exercise.js:147-154 | a square is light exactly when `x + z` is odd: a checkerboard |
| Lab1Exercise.NeighboursAlongZDiffer | Lab1/Lab1Exercise.js:153-154 | consecutive squares in a row are adjacent in z and differ in colour |
| Lab1Exercise.NeighboursAlongXDiffer | Lab1/Lab1Exercise.js:151-154 | squares one row apart are adjacent in x and differ in colour, because the row length 21 is odd |
| Lab1Exercise.EverySquareDrawn | Lab1/Lab1Exercise.js:151-153 | every board position is drawn, at counter `21(x+10) + (z+10)` |
| Lab1Exercise.RenderStockScene | Lab1/Lab1Exercise.js:131-161 | 441 squares are drawn, and the one drawn at counter `k` (from 0, one step per square) is `BoardSquare(k)` |
| Lab1Exercise.Scene.constructor | Lab1/Lab1Exercise.js:21-23 | red, angle 0, half a degree per frame |
| Lab1Exercise.Scene.OnColorChange | Lab1/Lab1Exercise.js:31-40 | the colour becomes the table lookup of the menu value; the rotation is untouched |
| Lab1Exercise.Scene.OnDirectionClick | Lab1/Lab1Exercise.js:44 | the speed is negated, so a second click restores it |
| Lab1Exercise.Scene.Render | Lab1/Lab1Exercise.js:97-111 | draws the board and the sphere at the current angle, then the angle grows by exactly `rotChange` |

## Left out

- All WebGL calls (buffer creation and upload, attributes, uniforms other than the ones mirrored as fields, `texImage2D`, `viewport` beyond its argument, `drawArrays` beyond its arguments) and shader loading: these are foreign browser APIs.
- The vector and matrix libraries (`vec3`, `normalize`, `cross`, `subtract`, `mult`, `rotate`, `translate`, `lookAt`, `perspective`, `flatten`): their code is not part of this model. Vectors are values, the vector operations are parameters, and matrices are unevaluated terms, so transform composition is not modelled.
- Floating-point rounding: all coordinates, angles and times are exact reals.
- `requestAnimationFrame`, `Date` and DOM lookups and event wiring. Times are parameters and frame requests are boolean results. The page images are named by their element ids.
- The `uofrGraphics` drawing helpers (`drawQuad`, `drawSolidSphere`, `drawSolidCube`, `setDrawColour`): their code is not part of this model. The first lab's frame is the list of squares with their colours, the sphere colour and the angle used.
- The model-view matrices of every `render`, including the boxes demo's matrix stack, whose pops outnumber its pushes: these are floating-point matrix products.
- The first lab's speed slider, which assigns the slider's string value to `rotChange`: JavaScript's string-to-number coercion is not modelled.
- The lighting/material uniform setup and texture parameters: only GL state.
- The LE2 demo's `handleKeys` / `isPressed` / key-state array: `handleKeys` is never called, because its only caller is commented out.
- The L4D1 demo: static literal data plus GL calls.
- `console.log` output: `makeFlatNormals`' warning is the `warned` result, and the log of `myY` in the playground's `startDrag` is dropped.
- The boxes demo's `wCubePoints`, which holds the length returned by `push` and is never read.
- FlatNormals.MakeFlatNormals: requires that the range fits both `triangles` and `normals` when `num` is a multiple of 3. A JavaScript `normals` array would instead grow when written past its end. A too-short `triangles` would make the code write the normals of the earlier triangles and then throw a TypeError reading `triangles[i][0]`; neither that partial write nor the throw is modelled. The only caller passes the whole vertex list and a pre-filled normals array, so it meets the bound.
- FlatNormals.WrittenNormalsAreUnit: the hypothesis that `normalize` returns unit vectors covers the zero vector too. It so sets aside degenerate (collinear or repeated-vertex) triangles, where the real `normalize` is handed a zero-length vector; the property is promised only for the idealised `normalize`. The unit-length clauses of FlatNormals.FaceNormal and FlatNormals.TriangleNormal rest on the same hypothesis.
- Lab1Exercise.LookupColor: `colors` is a plain JavaScript object, so a menu value naming a property inherited from `Object.prototype` (`toString`, `constructor`, `valueOf`, `hasOwnProperty`, `__proto__` and the like) yields that function or object, not `undefined`; the model treats every name outside the six-entry table as absent.
- Lab1Exercise.Scene.OnColorChange: inherits the prototype-name simplification of `LookupColor`.
- CubeScene.CubeControls.constructor: the uninitialised `myX` and `myY` start at 0 here. They are read only after `startDrag` has set them.
- LE3.ShaderPlay.constructor: the GL viewport starts at the canvas size the context was created with. `drawingBufferWidth`/`Height`, sent to `iResolution`, are not modelled.
