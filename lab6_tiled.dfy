/** The texturing demo: a textured solid cube with per-face normals and
    texture coordinates that tile each face, spun by elapsed time while the
    "A" key has turned the animation on. */
module Lab6Tiled {
  import opened Geometry
  import opened CubeData

  /** The cube's range in the vertex buffer: `solidCubeStart`, `solidCubeVertices`. */
  const SOLID_CUBE_START: nat := 0
  const SOLID_CUBE_VERTICES: nat := 36

  const LEFT: Vec3 := Vec3(-1.0, 0.0, 0.0)
  const RIGHT: Vec3 := Vec3(1.0, 0.0, 0.0)
  const DOWN: Vec3 := Vec3(0.0, -1.0, 0.0)
  const UP: Vec3 := Vec3(0.0, 1.0, 0.0)
  const FRONT: Vec3 := Vec3(0.0, 0.0, 1.0)
  const BACK: Vec3 := Vec3(0.0, 0.0, -1.0)

  /** `normals`: six copies of each face direction. */
  const NORMALS: seq<Vec3> := [
    FRONT, FRONT, FRONT, FRONT, FRONT, FRONT,
    RIGHT, RIGHT, RIGHT, RIGHT, RIGHT, RIGHT,
    BACK, BACK, BACK, BACK, BACK, BACK,
    LEFT, LEFT, LEFT, LEFT, LEFT, LEFT,
    UP, UP, UP, UP, UP, UP,
    DOWN, DOWN, DOWN, DOWN, DOWN, DOWN
  ]

  /** The (s, t) pairs of one face: two triangles covering `[0, 3] x [0, 3]`,
      so the texture repeats three times across the face. */
  const FACE_TEX_PATTERN: seq<real> := [3.0, 3.0, 0.0, 3.0, 0.0, 0.0, 3.0, 3.0, 0.0, 0.0, 3.0, 0.0]

  /** `texCoords`: the literal, one face per line. */
  const TEX_COORDS: seq<real> :=
    [3.0, 3.0, 0.0, 3.0, 0.0, 0.0, 3.0, 3.0, 0.0, 0.0, 3.0, 0.0] +
    [3.0, 3.0, 0.0, 3.0, 0.0, 0.0, 3.0, 3.0, 0.0, 0.0, 3.0, 0.0] +
    [3.0, 3.0, 0.0, 3.0, 0.0, 0.0, 3.0, 3.0, 0.0, 0.0, 3.0, 0.0] +
    [3.0, 3.0, 0.0, 3.0, 0.0, 0.0, 3.0, 3.0, 0.0, 0.0, 3.0, 0.0] +
    [3.0, 3.0, 0.0, 3.0, 0.0, 0.0, 3.0, 3.0, 0.0, 0.0, 3.0, 0.0] +
    [3.0, 3.0, 0.0, 3.0, 0.0, 0.0, 3.0, 3.0, 0.0, 0.0, 3.0, 0.0]

  /** Rotation speed of the animation. */
  const DEGREES_PER_SECOND: real := 60.0

  /** Vertex `i` of the cube has the direction of face `i / 6`, in the face
      order front, right, back, left, up, down, and there is one normal per
      vertex of the drawn range. */
  lemma NormalsPerFace(i: nat)
    requires i < SOLID_CUBE_VERTICES
    ensures |NORMALS| == SOLID_CUBE_VERTICES && i / 6 < |FACE_DIRECTIONS|
    ensures NORMALS[i] == FACE_DIRECTIONS[i / 6]
    ensures FACE_DIRECTIONS == [FRONT, RIGHT, BACK, LEFT, UP, DOWN]
  {
  }

  /** One (s, t) pair per vertex, and each face repeats the same 12 numbers. */
  lemma TexCoordsRepeatPerFace(i: nat)
    requires i < |TEX_COORDS|
    ensures |TEX_COORDS| == 2 * SOLID_CUBE_VERTICES == 72
    ensures TEX_COORDS[i] == FACE_TEX_PATTERN[i % 12]
  {
    var P := FACE_TEX_PATTERN;
    assert TEX_COORDS == P + P + P + P + P + P;
    var k := i / 12;
    if k == 0 {} else if k == 1 {} else if k == 2 {} else if k == 3 {} else if k == 4 {} else {}
  }

  /** The character `String.fromCharCode(keyCode)` yields, as its code: the
      key code taken modulo 2^16. */
  function KeyOf(keyCode: int): (c: int)
    ensures 0 <= c < 0x1_0000
    ensures 0 <= keyCode < 0x1_0000 ==> c == keyCode
    ensures (keyCode - c) % 0x1_0000 == 0
  {
    keyCode % 0x1_0000
  }

  /** The value of `anim` after a key press: toggled by "A", kept otherwise. */
  function AnimAfterKey(anim: bool, keyCode: int): (r: bool)
    ensures KeyOf(keyCode) == 'A' as int ==> r == !anim
    ensures KeyOf(keyCode) != 'A' as int ==> r == anim
  {
    if KeyOf(keyCode) == 'A' as int then !anim else anim
  }

  /** The image a key press reloads into the bound texture: keys "1", "2",
      "3" pick the page's images `pic1`, `pic2`, `pic3`; other keys reload
      nothing. */
  function TextureForKey(keyCode: int): (r: Option<string>)
    ensures r.Some? <==> KeyOf(keyCode) in {'1' as int, '2' as int, '3' as int}
  {
    var key := KeyOf(keyCode);
    if key == '1' as int then Some("pic1")
    else if key == '2' as int then Some("pic2")
    else if key == '3' as int then Some("pic3")
    else None
  }

  /** Pressing "A" twice restores the animation flag. */
  lemma ToggleTwiceRestores(anim: bool)
    ensures AnimAfterKey(AnimAfterKey(anim, 'A' as int), 'A' as int) == anim
  {
  }

  /** The number keys reload a texture and leave the animation flag alone. */
  lemma NumberKeysOnlyReloadTexture(anim: bool, keyCode: int)
    requires TextureForKey(keyCode).Some?
    ensures AnimAfterKey(anim, keyCode) == anim
  {
  }

  /** The demo's globals: the expanded `points`, the rotation angles, the
      animation flag, the time of the last update (in milliseconds) and the
      page image last loaded into the bound texture. */
  class Scene {
    const points: seq<Vec4>
    var xrot: real
    var yrot: real
    var zrot: real
    var anim: bool
    var lastUpdateTime: int
    var textureImage: string

    /** The script's top level at time `now`, followed by `setUpTextures`:
        `points[i] == cubeVerts[cubeLookups[i]]` for the 36 drawn vertices; no
        rotation, animation off, and image `pic1` in the texture. */
    constructor (now: int)
      ensures Expands(points, CUBE_VERTS, SOLID_CUBE_LOOKUPS)
      ensures |points| == SOLID_CUBE_VERTICES == |NORMALS|
      ensures xrot == 0.0 && yrot == 0.0 && zrot == 0.0 && !anim && lastUpdateTime == now
      ensures textureImage == "pic1"
    {
      TablesWellFormed();
      var expanded := ExpandLookups(SOLID_CUBE_LOOKUPS);
      points := expanded;
      xrot, yrot, zrot := 0.0, 0.0, 0.0;
      anim := false;
      lastUpdateTime := now;
      textureImage := "pic1";
    }

    /** `animate` at time `currentTime`: always record the time; only while
        `anim` is on, turn all three angles by the same amount, 60 degrees per
        elapsed second; then `render` draws the whole cube. */
    method Animate(currentTime: int) returns (draw: DrawCall)
      modifies this
      ensures lastUpdateTime == currentTime && anim == old(anim) && textureImage == old(textureImage)
      ensures var turn := DEGREES_PER_SECOND * ((currentTime - old(lastUpdateTime)) as real / 1000.0);
              old(anim) ==> xrot == old(xrot) + turn && yrot == old(yrot) + turn && zrot == old(zrot) + turn
      ensures !old(anim) ==> xrot == old(xrot) && yrot == old(yrot) && zrot == old(zrot)
      ensures xrot - old(xrot) == yrot - old(yrot) == zrot - old(zrot)
      ensures draw == DrawCall(Triangles, SOLID_CUBE_START, SOLID_CUBE_VERTICES)
    {
      var elapsedSec := (currentTime - lastUpdateTime) as real / 1000.0;
      lastUpdateTime := currentTime;
      if anim {
        var baseRot := DEGREES_PER_SECOND * elapsedSec;
        xrot := xrot + baseRot;
        yrot := yrot + baseRot;
        zrot := zrot + baseRot;
      }
      draw := DrawCall(Triangles, 0, 36);
    }

    /** `handleKeyDown(event)`: number keys reload a texture image, "A"
        toggles the animation; the angles and the clock are untouched. */
    method HandleKeyDown(keyCode: int) returns (upload: Option<string>)
      modifies this
      ensures anim == AnimAfterKey(old(anim), keyCode)
      ensures upload == TextureForKey(keyCode)
      ensures textureImage == if upload.Some? then upload.value else old(textureImage)
      ensures xrot == old(xrot) && yrot == old(yrot) && zrot == old(zrot)
      ensures lastUpdateTime == old(lastUpdateTime)
    {
      upload := TextureForKey(keyCode);
      if upload.Some? {
        textureImage := upload.value;
      }
      anim := AnimAfterKey(anim, keyCode);
    }
  }
}
