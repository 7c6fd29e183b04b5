/** The state the two lighting demos (LE2 and L4D2) declare identically: the
    shape records with `points`/`normals`, the global `points`/`normals`
    buffers that `loadShape` appends to, and the globals of the mouse
    handlers that spin and drag the cube. */
module CubeScene {
  import opened Geometry

  /** A shape record `{ points, normals, start, size, type }`. */
  class LitShape {
    var points: seq<Vec4>
    var normals: seq<Vec3>
    var start: nat
    var size: nat
    var primitive: Primitive

    /** The initialiser `{ points: [], normals: [], start: 0, size: 0, type: 0 }`. */
    constructor ()
      ensures points == [] && normals == [] && start == 0 && size == 0 && primitive == Points
    {
      points, normals, start, size, primitive := [], [], 0, 0, Points;
    }
  }

  /** The global `points` and `normals` arrays that are uploaded to the GPU. */
  class LitBuffers {
    var points: seq<Vec4>
    var normals: seq<Vec3>

    constructor ()
      ensures points == [] && normals == []
    {
      points, normals := [], [];
    }

    /** `loadShape(myShape, type)`: the shape's range starts at the old length
        of `points`, both arrays get the shape's arrays appended (so every
        earlier entry stays where it was), the size is the shape's vertex
        count and the primitive is recorded. The shape's own arrays are not
        changed, and its range of `points` now holds exactly its points. */
    method LoadShape(shape: LitShape, primitive: Primitive)
      modifies this, shape
      ensures shape.start == |old(points)|
      ensures points == old(points) + shape.points
      ensures normals == old(normals) + shape.normals
      ensures shape.size == |shape.points|
      ensures shape.primitive == primitive
      ensures shape.points == old(shape.points) && shape.normals == old(shape.normals)
      ensures points[shape.start..shape.start + shape.size] == shape.points
      ensures |old(points)| == |old(normals)| && |shape.points| == |shape.normals| ==> |points| == |normals|
    {
      shape.start := |points|;
      points := points + shape.points;
      normals := normals + shape.normals;
      shape.size := |shape.points|;
      shape.primitive := primitive;
    }
  }

  /** Scale from mouse pixels to degrees in `moveDrag` (`var s = 1`). */
  const DRAG_SCALE: real := 1.0

  /** The interaction globals `myX, myY, motion = false, animate = true`,
      `cubeRot = mat4()` and `rx = 0, ry = 0`. The uninitialised `myX` and
      `myY` start at 0 here; they are read only after `startDrag` set them. */
  class CubeControls {
    var myX: real
    var myY: real
    var motion: bool
    var animate: bool
    var cubeRot: Mat
    var rx: real
    var ry: real

    constructor ()
      ensures !motion && animate && cubeRot == Identity && rx == 0.0 && ry == 0.0
      ensures myX == 0.0 && myY == 0.0
    {
      myX, myY, motion, animate := 0.0, 0.0, false, true;
      cubeRot, rx, ry := Identity, 0.0, 0.0;
    }

    /** `startDrag(e)`: remember the pointer, start dragging and stop the
        automatic spin. The rotation is left as it is. */
    method StartDrag(clientX: real, clientY: real)
      modifies this
      ensures myX == clientX && myY == clientY
      ensures motion && !animate
      ensures cubeRot == old(cubeRot) && rx == old(rx) && ry == old(ry)
    {
      myX := clientX;
      myY := clientY;
      motion := true;
      animate := false;
    }

    /** What `moveDrag(e)` does: only while dragging, rotate the cube by the
        pointer's movement (about x by the vertical, then about y by the
        horizontal distance, both applied before the current rotation) and
        remember the new pointer position; nothing else changes. */
    twostate predicate Dragged(clientX: real, clientY: real)
      reads this
    {
      && (old(motion) ==> myX == clientX && myY == clientY
                          && cubeRot == Mult(RotateY((clientX - old(myX)) * DRAG_SCALE),
                                             Mult(RotateX((clientY - old(myY)) * DRAG_SCALE), old(cubeRot))))
      && (!old(motion) ==> myX == old(myX) && myY == old(myY) && cubeRot == old(cubeRot))
      && motion == old(motion) && animate == old(animate) && rx == old(rx) && ry == old(ry)
    }

    /** `moveDrag(e)`; `moved` tells whether the drag was applied. */
    method MoveDrag(clientX: real, clientY: real) returns (moved: bool)
      modifies this
      ensures moved == old(motion)
      ensures Dragged(clientX, clientY)
    {
      moved := motion;
      if motion {
        var dX := clientX - myX;
        var dY := clientY - myY;
        myX := clientX;
        myY := clientY;
        cubeRot := Mult(RotateX(dY * DRAG_SCALE), cubeRot);
        cubeRot := Mult(RotateY(dX * DRAG_SCALE), cubeRot);
      }
    }

    /** `endDrag(e)`: stop dragging; nothing else changes. */
    method EndDrag()
      modifies this
      ensures !motion
      ensures animate == old(animate) && myX == old(myX) && myY == old(myY)
      ensures cubeRot == old(cubeRot) && rx == old(rx) && ry == old(ry)
    {
      motion := false;
    }

    /** `resetCube(e)`: resume the automatic spin; nothing else changes. */
    method ResetCube()
      modifies this
      ensures animate
      ensures motion == old(motion) && myX == old(myX) && myY == old(myY)
      ensures cubeRot == old(cubeRot) && rx == old(rx) && ry == old(ry)
    {
      animate := true;
    }

    /** What the `if (animate == true)` block at the end of `render` does:
        only while animating, set the rotation from the current angles and
        advance them by 0.8 and 2 degrees; nothing else changes. */
    twostate predicate Spun()
      reads this
    {
      && (old(animate) ==> cubeRot == Mult(RotateX(old(rx)), RotateY(old(ry)))
                           && rx == old(rx) + 0.8 && ry == old(ry) + 2.0)
      && (!old(animate) ==> cubeRot == old(cubeRot) && rx == old(rx) && ry == old(ry))
      && motion == old(motion) && animate == old(animate) && myX == old(myX) && myY == old(myY)
    }

    /** That block; `spun` tells whether the angles advanced. */
    method Spin() returns (spun: bool)
      modifies this
      ensures spun == old(animate)
      ensures Spun()
    {
      spun := animate;
      if animate {
        cubeRot := RotateX(rx);
        cubeRot := Mult(cubeRot, RotateY(ry));
        rx := rx + 0.8;
        ry := ry + 2.0;
      }
    }
  }
}
