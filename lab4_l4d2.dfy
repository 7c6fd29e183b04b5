/** The lighting demo L4D2: a wire cube with a fake normal and a solid cube
    with one precomputed normal per face, both loaded into the global
    buffers; the solid cube is drawn every frame and spun until the mouse
    takes over. */
module L4D2 {
  import opened Geometry
  import opened CubeData
  import opened CubeScene

  /** The normal every wire-cube vertex gets (wire models need none). */
  const FAKE_NORMAL: Vec3 := Vec3(0.0, 0.0, 1.0)

  /** The demo's globals: `shapes.wireCube`, `shapes.solidCube`, the
      `points`/`normals` buffers, the `faceNum` counter of the expansion loop
      and the interaction variables. */
  class Scene {
    const wireCube: LitShape
    const solidCube: LitShape
    const buffers: LitBuffers
    const controls: CubeControls
    var faceNum: nat

    /** The two shape records are distinct objects. */
    ghost predicate Valid()
      reads this
    {
      wireCube != solidCube
    }

    /** The script's top level: the wire cube gets 30 corners, each with the
        fake normal; the solid cube gets 36 corners where vertex `i` has the
        normal of face `i / 6`, and `faceNum` stops at 6, after the last read
        of `normalsList`. */
    constructor ()
      ensures Valid() && fresh(wireCube) && fresh(solidCube) && fresh(buffers) && fresh(controls)
      ensures Expands(wireCube.points, CUBE_VERTS, WIRE_CUBE_LOOKUPS)
      ensures |wireCube.normals| == 30
      ensures forall i :: 0 <= i < 30 ==> wireCube.normals[i] == FAKE_NORMAL
      ensures Expands(solidCube.points, CUBE_VERTS, SOLID_CUBE_LOOKUPS)
      ensures |solidCube.normals| == 36
      ensures forall i :: 0 <= i < 36 ==> solidCube.normals[i] == FACE_DIRECTIONS[i / 6]
      ensures faceNum == 6
      ensures buffers.points == [] && buffers.normals == []
      ensures !controls.motion && controls.animate && controls.cubeRot == Identity
    {
      TablesWellFormed();
      var wirePoints, wireNormals := ExpandWithConstant(WIRE_CUBE_LOOKUPS, FAKE_NORMAL);
      var solidPoints, solidNormals, lastFace := ExpandPerFace(SOLID_CUBE_LOOKUPS, FACE_DIRECTIONS);
      var wire := new LitShape();
      wire.points, wire.normals := wirePoints, wireNormals;
      var solid := new LitShape();
      solid.points, solid.normals := solidPoints, solidNormals;
      wireCube, solidCube, faceNum := wire, solid, lastFace;
      buffers := new LitBuffers();
      controls := new CubeControls();
    }

    /** The loading step of `init`: the wire cube, then the solid cube. The
        wire cube occupies `[0, 30)` and the solid cube `[30, 66)` of both
        buffers, which have equal length. */
    method Init()
      requires Valid() && buffers.points == [] && buffers.normals == []
      requires |wireCube.points| == |wireCube.normals| == 30
      requires |solidCube.points| == |solidCube.normals| == 36
      modifies buffers, wireCube, solidCube
      ensures wireCube.start == 0 && wireCube.size == 30 && wireCube.primitive == LineStrip
      ensures solidCube.start == 30 && solidCube.size == 36 && solidCube.primitive == Triangles
      ensures wireCube.points == old(wireCube.points) && wireCube.normals == old(wireCube.normals)
      ensures solidCube.points == old(solidCube.points) && solidCube.normals == old(solidCube.normals)
      ensures buffers.points == wireCube.points + solidCube.points
      ensures buffers.normals == wireCube.normals + solidCube.normals
      ensures |buffers.points| == |buffers.normals| == 66
    {
      buffers.LoadShape(wireCube, LineStrip);
      buffers.LoadShape(solidCube, Triangles);
    }

    /** `render`: draw the solid cube's range, then run the spin block; the
        next frame is always requested. */
    method Render() returns (draw: DrawCall)
      modifies controls
      ensures draw == DrawCall(solidCube.primitive, solidCube.start, solidCube.size)
      ensures controls.Spun()
    {
      draw := DrawCall(solidCube.primitive, solidCube.start, solidCube.size);
      var _ := controls.Spin();
    }
  }
}
