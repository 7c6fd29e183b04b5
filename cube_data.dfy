/** The unit cube tables that the lighting, boxes and texturing demos each
    declare with the same literal values, and the loops that expand a lookup
    table into a flat vertex list with one attribute per vertex. */
module CubeData {
  import opened Geometry

  /** The eight corners of the unit cube, `cubeVerts`. */
  const CUBE_VERTS: seq<Vec4> := [
    Vec4( 0.5,  0.5,  0.5, 1.0),  // 0
    Vec4( 0.5,  0.5, -0.5, 1.0),  // 1
    Vec4( 0.5, -0.5,  0.5, 1.0),  // 2
    Vec4( 0.5, -0.5, -0.5, 1.0),  // 3
    Vec4(-0.5,  0.5,  0.5, 1.0),  // 4
    Vec4(-0.5,  0.5, -0.5, 1.0),  // 5
    Vec4(-0.5, -0.5,  0.5, 1.0),  // 6
    Vec4(-0.5, -0.5, -0.5, 1.0)   // 7
  ]

  /** `solidCubeLookups` (`cubeLookups` in the texturing demo): two
      counter-clockwise triangles per face, faces in the order front, right,
      back, left, top, bottom. */
  const SOLID_CUBE_LOOKUPS: seq<nat> := [
    0, 4, 6,  0, 6, 2,  // front
    1, 0, 2,  1, 2, 3,  // right
    5, 1, 3,  5, 3, 7,  // back
    4, 5, 7,  4, 7, 6,  // left
    4, 0, 1,  4, 1, 5,  // top
    6, 7, 3,  6, 3, 2   // bottom
  ]

  /** `wireCubeLookups`: one closed LINE_STRIP loop of five indices per face. */
  const WIRE_CUBE_LOOKUPS: seq<nat> := [
    0, 4, 6, 2, 0,  // front
    1, 0, 2, 3, 1,  // right
    5, 1, 3, 7, 5,  // back
    4, 5, 7, 6, 4,  // left
    4, 0, 1, 5, 4,  // top
    6, 7, 3, 2, 6   // bottom
  ]

  /** The outward direction of each face, in the face order of the solid
      cube: front, right, back, left, up, down. The L4D2 demo's `normalsList`
      and the texturing demo's `[front, right, back, left, up, down]`. */
  const FACE_DIRECTIONS: seq<Vec3> := [
    Vec3( 0.0,  0.0,  1.0),  // front
    Vec3( 1.0,  0.0,  0.0),  // right
    Vec3( 0.0,  0.0, -1.0),  // back
    Vec3(-1.0,  0.0,  0.0),  // left
    Vec3( 0.0,  1.0,  0.0),  // up
    Vec3( 0.0, -1.0,  0.0)   // down
  ]

  /** Every index of `lookups` addresses an entry of a table of `n` entries. */
  predicate InRange(lookups: seq<nat>, n: nat) {
    forall i :: 0 <= i < |lookups| ==> lookups[i] < n
  }

  /** `points` is the lookup table expanded: `points[i] == verts[lookups[i]]`. */
  predicate Expands(points: seq<Vec4>, verts: seq<Vec4>, lookups: seq<nat>) {
    && |points| == |lookups|
    && forall i :: 0 <= i < |lookups| ==> lookups[i] < |verts| && points[i] == verts[lookups[i]]
  }

  /** The literal tables have the sizes the demos rely on (8 corners, 36
      solid and 30 wire vertices), and no lookup reads past the corner table. */
  lemma TablesWellFormed()
    ensures |CUBE_VERTS| == 8 && |SOLID_CUBE_LOOKUPS| == 36 && |WIRE_CUBE_LOOKUPS| == 30
    ensures InRange(SOLID_CUBE_LOOKUPS, |CUBE_VERTS|)
    ensures InRange(WIRE_CUBE_LOOKUPS, |CUBE_VERTS|)
  {
  }

  /** How many of the x, y, z coordinates of two corners differ: 1 for the
      ends of a cube edge, 2 for opposite corners of a face. */
  function CoordsDiffering(a: Vec4, b: Vec4): (n: nat)
    ensures n <= 3
    ensures n == 0 <==> Xyz(a) == Xyz(b)
  {
    (if a.x != b.x then 1 else 0) + (if a.y != b.y then 1 else 0) + (if a.z != b.z then 1 else 0)
  }

  /** The corner the `i`-th lookup of solid face `f` names. */
  function FaceCorner(f: nat, i: nat): Vec4
    requires f < 6 && i < 6
  {
    CUBE_VERTS[SOLID_CUBE_LOOKUPS[6 * f + i]]
  }

  /** Every solid-cube face is a quad split into two triangles along a
      diagonal: entries 6f, 6f+3 name the same corner and so do 6f+2, 6f+4;
      those two corners are opposite corners of the face, and every other
      side of both triangles is an edge of the cube. */
  lemma SolidFacesShareDiagonal(f: nat)
    requires f < 6
    ensures SOLID_CUBE_LOOKUPS[6 * f] == SOLID_CUBE_LOOKUPS[6 * f + 3]
    ensures SOLID_CUBE_LOOKUPS[6 * f + 2] == SOLID_CUBE_LOOKUPS[6 * f + 4]
    ensures CoordsDiffering(FaceCorner(f, 0), FaceCorner(f, 2)) == 2
    ensures CoordsDiffering(FaceCorner(f, 0), FaceCorner(f, 1)) == 1
    ensures CoordsDiffering(FaceCorner(f, 1), FaceCorner(f, 2)) == 1
    ensures CoordsDiffering(FaceCorner(f, 4), FaceCorner(f, 5)) == 1
    ensures CoordsDiffering(FaceCorner(f, 5), FaceCorner(f, 3)) == 1
  {
    if f == 0 {
      assert FaceCorner(f, 0) == CUBE_VERTS[0];
      assert FaceCorner(f, 1) == CUBE_VERTS[4];
      assert FaceCorner(f, 2) == CUBE_VERTS[6];
      assert FaceCorner(f, 3) == CUBE_VERTS[0];
      assert FaceCorner(f, 4) == CUBE_VERTS[6];
      assert FaceCorner(f, 5) == CUBE_VERTS[2];
    } else if f == 1 {
      assert FaceCorner(f, 0) == CUBE_VERTS[1];
      assert FaceCorner(f, 1) == CUBE_VERTS[0];
      assert FaceCorner(f, 2) == CUBE_VERTS[2];
      assert FaceCorner(f, 3) == CUBE_VERTS[1];
      assert FaceCorner(f, 4) == CUBE_VERTS[2];
      assert FaceCorner(f, 5) == CUBE_VERTS[3];
    } else if f == 2 {
      assert FaceCorner(f, 0) == CUBE_VERTS[5];
      assert FaceCorner(f, 1) == CUBE_VERTS[1];
      assert FaceCorner(f, 2) == CUBE_VERTS[3];
      assert FaceCorner(f, 3) == CUBE_VERTS[5];
      assert FaceCorner(f, 4) == CUBE_VERTS[3];
      assert FaceCorner(f, 5) == CUBE_VERTS[7];
    } else if f == 3 {
      assert FaceCorner(f, 0) == CUBE_VERTS[4];
      assert FaceCorner(f, 1) == CUBE_VERTS[5];
      assert FaceCorner(f, 2) == CUBE_VERTS[7];
      assert FaceCorner(f, 3) == CUBE_VERTS[4];
      assert FaceCorner(f, 4) == CUBE_VERTS[7];
      assert FaceCorner(f, 5) == CUBE_VERTS[6];
    } else if f == 4 {
      assert FaceCorner(f, 0) == CUBE_VERTS[4];
      assert FaceCorner(f, 1) == CUBE_VERTS[0];
      assert FaceCorner(f, 2) == CUBE_VERTS[1];
      assert FaceCorner(f, 3) == CUBE_VERTS[4];
      assert FaceCorner(f, 4) == CUBE_VERTS[1];
      assert FaceCorner(f, 5) == CUBE_VERTS[5];
    } else {
      assert FaceCorner(f, 0) == CUBE_VERTS[6];
      assert FaceCorner(f, 1) == CUBE_VERTS[7];
      assert FaceCorner(f, 2) == CUBE_VERTS[3];
      assert FaceCorner(f, 3) == CUBE_VERTS[6];
      assert FaceCorner(f, 4) == CUBE_VERTS[3];
      assert FaceCorner(f, 5) == CUBE_VERTS[2];
    }
  }

  /** The face directions fit the geometry: each of the six vertices of solid
      face `i / 6` lies on the plane half a unit out along that face's
      direction, so the precomputed normals point outward from their own face. */
  lemma FaceDirectionsOutward(i: nat)
    requires i < |SOLID_CUBE_LOOKUPS|
    ensures SOLID_CUBE_LOOKUPS[i] < |CUBE_VERTS| && i / 6 < |FACE_DIRECTIONS|
    ensures Dot(Xyz(CUBE_VERTS[SOLID_CUBE_LOOKUPS[i]]), FACE_DIRECTIONS[i / 6]) == 0.5
  {
  }

  /** Every wire-cube face is a closed loop: it ends at the corner it starts at. */
  lemma WireFacesClosed(f: nat)
    requires f < 6
    ensures WIRE_CUBE_LOOKUPS[5 * f] == WIRE_CUBE_LOOKUPS[5 * f + 4]
  {
  }

  /** The texturing demo's loop: `points.push(cubeVerts[cubeLookups[i]])`
      for every lookup, starting from an empty list. */
  method ExpandLookups(lookups: seq<nat>) returns (points: seq<Vec4>)
    requires InRange(lookups, |CUBE_VERTS|)
    ensures Expands(points, CUBE_VERTS, lookups)
  {
    points := [];
    var i := 0;
    while i < |lookups|
      invariant 0 <= i <= |lookups|
      invariant Expands(points, CUBE_VERTS, lookups[..i])
    {
      points := points + [CUBE_VERTS[lookups[i]]];
      i := i + 1;
    }
    assert lookups[..i] == lookups;
  }

  /** The loops that push one corner and one fixed attribute per lookup: the
      lighting demo's solid cube with placeholder normals `vec3(0, 0, 0)`,
      the wire cube with the fake normal `vec3(0, 0, 1)`, and the white and
      the blue wire cubes of the boxes demo. */
  method ExpandWithConstant<A>(lookups: seq<nat>, attr: A) returns (points: seq<Vec4>, attrs: seq<A>)
    requires InRange(lookups, |CUBE_VERTS|)
    ensures Expands(points, CUBE_VERTS, lookups)
    ensures |attrs| == |lookups|
    ensures forall i :: 0 <= i < |attrs| ==> attrs[i] == attr
  {
    points, attrs := [], [];
    var i := 0;
    while i < |lookups|
      invariant 0 <= i <= |lookups|
      invariant Expands(points, CUBE_VERTS, lookups[..i])
      invariant |attrs| == i
      invariant forall j :: 0 <= j < i ==> attrs[j] == attr
    {
      points := points + [CUBE_VERTS[lookups[i]]];
      attrs := attrs + [attr];
      i := i + 1;
    }
    assert lookups[..i] == lookups;
  }

  /** The solid-cube loops that give each face its own attribute: push
      `faceTable[faceNum]` for vertex `i`, then advance `faceNum` exactly when
      `i % 6 == 5`. So vertex `i` gets `faceTable[i / 6]`, the six vertices of
      a face share one entry, the table is read only below `|lookups| / 6`
      rounded up, and the counter ends at `|lookups| / 6`. */
  method ExpandPerFace<A>(lookups: seq<nat>, faceTable: seq<A>)
    returns (points: seq<Vec4>, attrs: seq<A>, faceNum: nat)
    requires InRange(lookups, |CUBE_VERTS|)
    requires |lookups| <= 6 * |faceTable|
    ensures Expands(points, CUBE_VERTS, lookups)
    ensures |attrs| == |lookups|
    ensures forall i :: 0 <= i < |attrs| ==> i / 6 < |faceTable| && attrs[i] == faceTable[i / 6]
    ensures faceNum == |lookups| / 6
  {
    points, attrs, faceNum := [], [], 0;
    var i := 0;
    while i < |lookups|
      invariant 0 <= i <= |lookups|
      invariant Expands(points, CUBE_VERTS, lookups[..i])
      invariant |attrs| == i
      invariant forall j :: 0 <= j < i ==> j / 6 < |faceTable| && attrs[j] == faceTable[j / 6]
      invariant faceNum == i / 6
    {
      points := points + [CUBE_VERTS[lookups[i]]];
      attrs := attrs + [faceTable[faceNum]];
      if i % 6 == 5 {
        faceNum := faceNum + 1;
      }
      i := i + 1;
    }
    assert lookups[..i] == lookups;
  }
}
