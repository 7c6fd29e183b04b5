/** The lighting demo LE2: a solid cube whose flat normals are computed with
    `makeFlatNormals`, loaded into the global buffers, drawn every frame, and
    spun automatically until the mouse takes over. */
module LE2 {
  import opened Geometry
  import opened CubeData
  import opened FlatNormals
  import opened CubeScene

  /** The placeholder normal pushed for every vertex before the flat normals
      are computed. */
  const ZERO_NORMAL: Vec3 := Vec3(0.0, 0.0, 0.0)

  /** The demo's globals: `shapes.solidCube`, the `points`/`normals` buffers
      and the interaction variables. */
  class Scene {
    const solidCube: LitShape
    const buffers: LitBuffers
    const controls: CubeControls

    /** The script's top level: expand the solid cube from the lookup table
        with placeholder normals, then overwrite all 36 normals with the flat
        normal of their triangle. */
    constructor (lib: VecLib)
      ensures fresh(solidCube) && fresh(buffers) && fresh(controls)
      ensures Expands(solidCube.points, CUBE_VERTS, SOLID_CUBE_LOOKUPS)
      ensures solidCube.normals
              == FlatNormalsOf(lib, solidCube.points, 0, 36, seq(36, _ => ZERO_NORMAL))
      ensures |solidCube.points| == |solidCube.normals| == 36
      ensures solidCube.start == 0 && solidCube.size == 0 && solidCube.primitive == Points
      ensures buffers.points == [] && buffers.normals == []
      ensures !controls.motion && controls.animate && controls.cubeRot == Identity
    {
      TablesWellFormed();
      var points, zeros := ExpandWithConstant(SOLID_CUBE_LOOKUPS, ZERO_NORMAL);
      var triangles := new Vec4[|points|](i requires 0 <= i < |points| => points[i]);
      var normals := new Vec3[|zeros|](i requires 0 <= i < |zeros| => zeros[i]);
      assert triangles[..] == points;
      assert normals[..] == seq(36, _ => ZERO_NORMAL);
      var warned := MakeFlatNormals(lib, triangles, 0, triangles.Length, normals);
      var shape := new LitShape();
      shape.points := points;
      shape.normals := normals[..];
      solidCube := shape;
      buffers := new LitBuffers();
      controls := new CubeControls();
    }

    /** The loading step of `init`: after `loadShape(shapes.solidCube,
        gl.TRIANGLES)` the cube occupies `[0, 36)` of both buffers. */
    method Init()
      requires buffers.points == [] && buffers.normals == []
      requires |solidCube.points| == |solidCube.normals| == 36
      modifies buffers, solidCube
      ensures solidCube.start == 0 && solidCube.size == 36 && solidCube.primitive == Triangles
      ensures buffers.points == solidCube.points == old(solidCube.points)
      ensures buffers.normals == solidCube.normals == old(solidCube.normals)
    {
      buffers.LoadShape(solidCube, Triangles);
    }

    /** `render`: draw the cube's range, then run the spin block. The next
        frame is requested only while animating, so the animation loop stops
        once a drag begins. */
    method Render() returns (draw: DrawCall, nextFrame: bool)
      modifies controls
      ensures draw == DrawCall(solidCube.primitive, solidCube.start, solidCube.size)
      ensures nextFrame == old(controls.animate)
      ensures controls.Spun()
    {
      draw := DrawCall(solidCube.primitive, solidCube.start, solidCube.size);
      nextFrame := controls.Spin();
    }

    /** `moveDrag`: the shared drag step, plus a frame request exactly when the
        drag was applied. */
    method MoveDrag(clientX: real, clientY: real) returns (nextFrame: bool)
      modifies controls
      ensures nextFrame == old(controls.motion)
      ensures controls.Dragged(clientX, clientY)
    {
      nextFrame := controls.MoveDrag(clientX, clientY);
    }

    /** `resetCube`: resume the spin and always request a frame, which
        restarts the animation loop. Only `animate` changes. */
    method ResetCube() returns (nextFrame: bool)
      modifies controls
      ensures nextFrame && controls.animate
      ensures controls.motion == old(controls.motion)
      ensures controls.myX == old(controls.myX) && controls.myY == old(controls.myY)
      ensures controls.cubeRot == old(controls.cubeRot)
      ensures controls.rx == old(controls.rx) && controls.ry == old(controls.ry)
    {
      controls.ResetCube();
      nextFrame := true;
    }
  }
}
