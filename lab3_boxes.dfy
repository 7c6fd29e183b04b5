/** The boxes demo: four coloured shapes (a white and a blue wire cube, a
    solid cube with one colour per face, and three coloured axes) loaded one
    after another into the global `points`/`colors` buffers. */
module Boxes {
  import opened Geometry
  import opened CubeData

  const RED: Vec4 := Vec4(1.0, 0.0, 0.0, 1.0)
  const GREEN: Vec4 := Vec4(0.0, 1.0, 0.0, 1.0)
  const BLUE: Vec4 := Vec4(0.0, 0.0, 1.0, 1.0)
  const LIGHT_RED: Vec4 := Vec4(1.0, 0.5, 0.5, 1.0)
  const LIGHT_GREEN: Vec4 := Vec4(0.5, 1.0, 0.5, 1.0)
  const LIGHT_BLUE: Vec4 := Vec4(0.5, 0.5, 1.0, 1.0)
  const WHITE: Vec4 := Vec4(1.0, 1.0, 1.0, 1.0)

  /** The axis end points, drawn with LINES: x, y and z axes. */
  const AXES_POINTS: seq<Vec4> := [
    Vec4( 2.0,  0.0,  0.0, 1.0), Vec4(-2.0,  0.0,  0.0, 1.0),
    Vec4( 0.0,  2.0,  0.0, 1.0), Vec4( 0.0, -2.0,  0.0, 1.0),
    Vec4( 0.0,  0.0,  2.0, 1.0), Vec4( 0.0,  0.0, -2.0, 1.0)
  ]

  const AXES_COLORS: seq<Vec4> := [GREEN, GREEN, RED, RED, BLUE, BLUE]

  /** `colorList`: one colour per solid-cube face. */
  const COLOR_LIST: seq<Vec4> := [LIGHT_BLUE, LIGHT_GREEN, LIGHT_RED, BLUE, RED, GREEN]

  /** A shape record `{ points, colors, start, size, type }`. */
  class ColorShape {
    var points: seq<Vec4>
    var colors: seq<Vec4>
    var start: nat
    var size: nat
    var primitive: Primitive

    /** The initialiser `{ points: [], colors: [], start: 0, size: 0, type: 0 }`. */
    constructor ()
      ensures points == [] && colors == [] && start == 0 && size == 0 && primitive == Points
    {
      points, colors, start, size, primitive := [], [], 0, 0, Points;
    }
  }

  /** The global `points` and `colors` arrays that are uploaded to the GPU. */
  class ColorBuffers {
    var points: seq<Vec4>
    var colors: seq<Vec4>

    constructor ()
      ensures points == [] && colors == []
    {
      points, colors := [], [];
    }

    /** `loadShape(myShape, type)`: the shape's range starts at the old length
        of `points`; both arrays get the shape's arrays appended, so every
        earlier entry is unchanged; the size, computed as `points.length -
        start`, is the shape's vertex count. Equal-length buffers stay equal
        length when the shape's two arrays have equal length. */
    method LoadShape(shape: ColorShape, primitive: Primitive)
      modifies this, shape
      ensures shape.start == |old(points)|
      ensures points == old(points) + shape.points
      ensures colors == old(colors) + shape.colors
      ensures shape.size == |shape.points|
      ensures shape.primitive == primitive
      ensures shape.points == old(shape.points) && shape.colors == old(shape.colors)
      ensures points[shape.start..shape.start + shape.size] == shape.points
      ensures |old(points)| == |old(colors)| && |shape.points| == |shape.colors| ==> |points| == |colors|
    {
      shape.start := |points|;
      points := points + shape.points;
      colors := colors + shape.colors;
      shape.size := |points| - shape.start;
      shape.primitive := primitive;
    }
  }

  /** The demo's globals: the four shape records, the buffers and the
      `colorNum` counter of the solid-cube loop. */
  class Scene {
    const wireCube: ColorShape
    const blueWireCube: ColorShape
    const solidCube: ColorShape
    const axes: ColorShape
    const buffers: ColorBuffers
    var colorNum: nat

    /** The four shape records are distinct objects. */
    ghost predicate Valid()
      reads this
    {
      && wireCube != blueWireCube && wireCube != solidCube && wireCube != axes
      && blueWireCube != solidCube && blueWireCube != axes && solidCube != axes
    }

    /** The draw calls `render` issues, in order: the axes, the white cube and
        the blue cube (the solid cube is loaded but never drawn). */
    function RenderDraws(): (draws: seq<DrawCall>)
      reads this, axes, wireCube, blueWireCube
      ensures |draws| == 3
      ensures forall k :: 0 <= k < 3 ==>
                var shape := [axes, wireCube, blueWireCube][k];
                draws[k] == DrawCall(shape.primitive, shape.start, shape.size)
    {
      [ DrawCall(axes.primitive, axes.start, axes.size),
        DrawCall(wireCube.primitive, wireCube.start, wireCube.size),
        DrawCall(blueWireCube.primitive, blueWireCube.start, blueWireCube.size) ]
    }

    /** The script's top level: the axes from their literals; both wire cubes
        expanded from the wire lookups, all white and all blue; the solid cube
        expanded with the colour of face `i / 6` for vertex `i`, so the six
        vertices of a face share one colour and `colorNum` stops at 6. */
    constructor ()
      ensures Valid()
      ensures fresh(wireCube) && fresh(blueWireCube) && fresh(solidCube) && fresh(axes) && fresh(buffers)
      ensures axes.points == AXES_POINTS && axes.colors == AXES_COLORS
      ensures Expands(wireCube.points, CUBE_VERTS, WIRE_CUBE_LOOKUPS)
      ensures wireCube.colors == seq(30, _ => WHITE)
      ensures blueWireCube.points == wireCube.points
      ensures blueWireCube.colors == seq(30, _ => BLUE)
      ensures Expands(solidCube.points, CUBE_VERTS, SOLID_CUBE_LOOKUPS)
      ensures |solidCube.colors| == 36
      ensures forall i :: 0 <= i < 36 ==> solidCube.colors[i] == COLOR_LIST[i / 6]
      ensures colorNum == 6
      ensures buffers.points == [] && buffers.colors == []
    {
      TablesWellFormed();
      var a := new ColorShape();
      a.points, a.colors := AXES_POINTS, AXES_COLORS;
      var white := new ColorShape();
      white.points, white.colors := ExpandWithConstant(WIRE_CUBE_LOOKUPS, WHITE);
      var blue := new ColorShape();
      blue.points, blue.colors := ExpandWithConstant(WIRE_CUBE_LOOKUPS, BLUE);
      var solid := new ColorShape();
      var lastColor;
      solid.points, solid.colors, lastColor := ExpandPerFace(SOLID_CUBE_LOOKUPS, COLOR_LIST);
      axes, wireCube, blueWireCube, solidCube, colorNum := a, white, blue, solid, lastColor;
      buffers := new ColorBuffers();
    }

    /** The loading step of `init`: four loads in sequence give consecutive,
        disjoint ranges, and `render` then draws the axes at `[96, 102)`, the
        white cube at `[0, 30)` and the blue cube at `[30, 60)`. */
    method Init()
      requires Valid() && buffers.points == [] && buffers.colors == []
      requires |wireCube.points| == |wireCube.colors| == 30
      requires |blueWireCube.points| == |blueWireCube.colors| == 30
      requires |solidCube.points| == |solidCube.colors| == 36
      requires |axes.points| == |axes.colors| == 6
      modifies buffers, wireCube, blueWireCube, solidCube, axes
      ensures wireCube.start == 0 && wireCube.size == 30 && wireCube.primitive == LineStrip
      ensures blueWireCube.start == 30 && blueWireCube.size == 30 && blueWireCube.primitive == LineStrip
      ensures solidCube.start == 60 && solidCube.size == 36 && solidCube.primitive == Triangles
      ensures axes.start == 96 && axes.size == 6 && axes.primitive == Lines
      ensures buffers.points
              == old(wireCube.points) + old(blueWireCube.points) + old(solidCube.points) + old(axes.points)
      ensures buffers.colors
              == old(wireCube.colors) + old(blueWireCube.colors) + old(solidCube.colors) + old(axes.colors)
      ensures |buffers.points| == |buffers.colors| == 102
      ensures RenderDraws() == [DrawCall(Lines, 96, 6), DrawCall(LineStrip, 0, 30), DrawCall(LineStrip, 30, 30)]
      ensures wireCube.points == old(wireCube.points) && wireCube.colors == old(wireCube.colors)
      ensures blueWireCube.points == old(blueWireCube.points) && blueWireCube.colors == old(blueWireCube.colors)
      ensures solidCube.points == old(solidCube.points) && solidCube.colors == old(solidCube.colors)
      ensures axes.points == old(axes.points) && axes.colors == old(axes.colors)
      ensures forall k :: 0 <= k < 3 ==>
                var d := RenderDraws()[k];
                && 0 <= d.first <= d.first + d.count <= |buffers.points|
                && buffers.points[d.first .. d.first + d.count] == [axes, wireCube, blueWireCube][k].points
                && buffers.colors[d.first .. d.first + d.count] == [axes, wireCube, blueWireCube][k].colors
    {
      buffers.LoadShape(wireCube, LineStrip);
      buffers.LoadShape(blueWireCube, LineStrip);
      buffers.LoadShape(solidCube, Triangles);
      buffers.LoadShape(axes, Lines);
    }
  }
}
