/** The shader playground LE3: two triangles covering the whole clip square,
    a canvas that follows the size the page displays it at, the time since
    start, and the mouse or touch position (with y flipped to count from the
    bottom) handed to the fragment shader. */
module LE3 {
  import opened Geometry

  /** The six vertices `quad2d(p1, p2, p3, p4)` returns: the triangles
      `p1, p2, p4` and `p4, p2, p3`. */
  function Quad2d<T>(p1: T, p2: T, p3: T, p4: T): (q: seq<T>)
    ensures |q| == 6
    ensures q[..3] == [p1, p2, p4] && q[3..] == [p4, p2, p3]
  {
    [p1, p2, p4, p4, p2, p3]
  }

  /** Twice the signed area of the triangle `a, b, c`: positive when the
      corners run counterclockwise. */
  function Area2(a: Vec2, b: Vec2, c: Vec2): real {
    (b.x - a.x) * (c.y - a.y) - (c.x - a.x) * (b.y - a.y)
  }

  /** Twice the signed area of the quadrilateral `p1, p2, p3, p4`, by the
      shoelace formula. */
  function QuadArea2(p1: Vec2, p2: Vec2, p3: Vec2, p4: Vec2): real {
    (p1.x * p2.y - p2.x * p1.y) + (p2.x * p3.y - p3.x * p2.y)
    + (p3.x * p4.y - p4.x * p3.y) + (p4.x * p1.y - p1.x * p4.y)
  }

  /** The two triangles meet along the diagonal `p2`–`p4`: that is the only
      pair of corners they share, and `p1` and `p3` are the third corners of
      one triangle each. */
  lemma QuadSharesDiagonal<T>(p1: T, p2: T, p3: T, p4: T)
    requires p1 != p2 && p1 != p3 && p1 != p4 && p2 != p3 && p2 != p4 && p3 != p4
    ensures var q := Quad2d(p1, p2, p3, p4);
            && (set v | v in q[..3]) * (set v | v in q[3..]) == {p2, p4}
            && p1 in q[..3] && p1 !in q[3..]
            && p3 in q[3..] && p3 !in q[..3]
  {
    var q := Quad2d(p1, p2, p3, p4);
    assert q[..3] == [p1, p2, p4] && q[3..] == [p4, p2, p3];
    var first := set v | v in q[..3];
    var second := set v | v in q[3..];
    assert first == {p1, p2, p4};
    assert second == {p4, p2, p3};
  }

  /** The two triangles tile the quadrilateral: their signed areas add up to
      the quadrilateral's, whatever its corners. */
  lemma QuadAreaSplits(p1: Vec2, p2: Vec2, p3: Vec2, p4: Vec2)
    ensures var q := Quad2d(p1, p2, p3, p4);
            Area2(q[0], q[1], q[2]) + Area2(q[3], q[4], q[5]) == QuadArea2(p1, p2, p3, p4)
  {
    var q := Quad2d(p1, p2, p3, p4);
    assert Area2(q[0], q[1], q[2]) == Area2(p1, p2, p4);
    assert Area2(q[3], q[4], q[5]) == Area2(p4, p2, p3);
  }

  /** `screen`: the clip square from corner (1, 1) counterclockwise. */
  const SCREEN: seq<Vec2> := Quad2d(Vec2(1.0, 1.0), Vec2(-1.0, 1.0), Vec2(-1.0, -1.0), Vec2(1.0, -1.0))

  /** The point `p` lies in the counterclockwise triangle `a, b, c` (its
      boundary included): on the left of, or on, each of its edges. */
  predicate InTriangle(a: Vec2, b: Vec2, c: Vec2, p: Vec2) {
    Area2(a, b, p) >= 0.0 && Area2(b, c, p) >= 0.0 && Area2(c, a, p) >= 0.0
  }

  /** The clip square `[-1, 1] x [-1, 1]`, which is the whole canvas. */
  predicate InClipSquare(p: Vec2) {
    -1.0 <= p.x <= 1.0 && -1.0 <= p.y <= 1.0
  }

  /** Both triangles of `screen` wind counterclockwise, so both are
      front-facing under the default winding; each has area 2, adding up to
      the clip square's area 4. */
  lemma ScreenTrianglesCounterclockwise()
    ensures |SCREEN| == 6
    ensures Area2(SCREEN[0], SCREEN[1], SCREEN[2]) == 4.0
    ensures Area2(SCREEN[3], SCREEN[4], SCREEN[5]) == 4.0
    ensures QuadArea2(SCREEN[0], SCREEN[1], SCREEN[5], SCREEN[2]) == 8.0
  {
  }

  /** The two triangles of `screen` cover exactly the clip square: a point is
      in one of them if and only if it is in the square, and a point in both
      lies on their shared diagonal from (-1, 1) to (1, -1). */
  lemma ScreenCoversClipSquare(p: Vec2)
    ensures InClipSquare(p) <==> InTriangle(SCREEN[0], SCREEN[1], SCREEN[2], p)
                                 || InTriangle(SCREEN[3], SCREEN[4], SCREEN[5], p)
    ensures InTriangle(SCREEN[0], SCREEN[1], SCREEN[2], p) && InTriangle(SCREEN[3], SCREEN[4], SCREEN[5], p)
            ==> p.x + p.y == 0.0 && InClipSquare(p)
  {
    assert SCREEN == [Vec2(1.0, 1.0), Vec2(-1.0, 1.0), Vec2(1.0, -1.0),
                      Vec2(1.0, -1.0), Vec2(-1.0, 1.0), Vec2(-1.0, -1.0)];
    assert InTriangle(SCREEN[0], SCREEN[1], SCREEN[2], p)
           <==> p.y <= 1.0 && p.x + p.y >= 0.0 && p.x <= 1.0;
    assert InTriangle(SCREEN[3], SCREEN[4], SCREEN[5], p)
           <==> p.x + p.y <= 0.0 && p.x >= -1.0 && p.y >= -1.0;
  }

  /** The canvas element: its drawing-buffer size `width`/`height` and the
      size the page displays it at, `clientWidth`/`clientHeight`. */
  class Canvas {
    var width: nat
    var height: nat
    var clientWidth: nat
    var clientHeight: nat

    constructor (width: nat, height: nat, clientWidth: nat, clientHeight: nat)
      ensures this.width == width && this.height == height
      ensures this.clientWidth == clientWidth && this.clientHeight == clientHeight
    {
      this.width, this.height := width, height;
      this.clientWidth, this.clientHeight := clientWidth, clientHeight;
    }

    /** The drawing buffer has the displayed size. */
    predicate Settled()
      reads this
    {
      width == clientWidth && height == clientHeight
    }
  }

  /** A touch point of `changedTouches`. */
  datatype Touch = Touch(clientX: real, clientY: real)

  /** The demo's globals: the canvas, the GL viewport, the pointer position
      `myX`/`myY` with its `motion` flag, the value last sent to the `iMouse`
      uniform, and `startTime` (milliseconds). */
  class ShaderPlay {
    const canvas: Canvas
    var viewport: (nat, nat)
    var myX: real
    var myY: real
    var motion: bool
    var mouse: (real, real)
    var startTime: int

    /** What a pointer event at `(clientX, clientY)` leaves behind: the
        position with y counted from the bottom of the canvas, also sent to
        `iMouse`. */
    predicate PointerAt(clientX: real, clientY: real)
      reads this, canvas
    {
      myX == clientX && myY == canvas.clientHeight as real - clientY && mouse == (myX, myY)
    }

    /** `resize(canvas)`: when the drawing buffer differs from the displayed
        size, adopt the displayed size and reset the viewport to it;
        `changed` tells whether that happened. Afterwards the canvas is
        settled, and a call on a settled canvas changes nothing, so a second
        call in a row is a no-op. */
    method Resize() returns (changed: bool)
      modifies this, canvas
      ensures changed <==> !old(canvas.Settled())
      ensures canvas.Settled()
      ensures canvas.clientWidth == old(canvas.clientWidth) && canvas.clientHeight == old(canvas.clientHeight)
      ensures changed ==> viewport == (canvas.width, canvas.height)
      ensures !changed ==> canvas.width == old(canvas.width) && canvas.height == old(canvas.height)
                           && viewport == old(viewport)
      ensures myX == old(myX) && myY == old(myY) && motion == old(motion)
      ensures mouse == old(mouse) && startTime == old(startTime)
    {
      var displayWidth := canvas.clientWidth;
      var displayHeight := canvas.clientHeight;
      changed := false;
      if canvas.width != displayWidth || canvas.height != displayHeight {
        canvas.width := displayWidth;
        canvas.height := displayHeight;
        viewport := (canvas.width, canvas.height);
        changed := true;
      }
    }

    /** `init` at time `now`, on a canvas whose context started with the
        viewport at its initial size: resize, then fudge the start time one
        minute into the past and put the pointer at the centre of the canvas,
        not dragging. */
    constructor (c: Canvas, now: int)
      modifies c
      ensures canvas == c && c.Settled()
      ensures c.clientWidth == old(c.clientWidth) && c.clientHeight == old(c.clientHeight)
      ensures viewport == (c.width, c.height)
      ensures startTime == now - 60000
      ensures myX == c.width as real / 2.0 && myY == c.height as real / 2.0 && mouse == (myX, myY)
      ensures !motion
    {
      canvas := c;
      viewport := (c.width, c.height);
      myX, myY, motion, mouse, startTime := 0.0, 0.0, false, (0.0, 0.0), 0;
      new;
      var _ := Resize();
      startTime := now - 60000;
      myX := canvas.width as real / 2.0;
      myY := canvas.height as real / 2.0;
      mouse := (myX, myY);
    }

    /** `render` at time `now`: resize (with the effect `Resize` states), send the seconds since the (fudged)
        start, at least 60 once `now` has reached the start of `init`, and
        draw the two triangles of `screen`. The pointer is untouched. */
    method Render(now: int) returns (seconds: real, draw: DrawCall)
      modifies this, canvas
      ensures canvas.Settled()
      ensures canvas.clientWidth == old(canvas.clientWidth) && canvas.clientHeight == old(canvas.clientHeight)
      ensures old(canvas.Settled()) ==> canvas.width == old(canvas.width) && canvas.height == old(canvas.height)
                                        && viewport == old(viewport)
      ensures !old(canvas.Settled()) ==> viewport == (canvas.width, canvas.height)
      ensures seconds == (now - startTime) as real / 1000.0
      ensures now >= startTime + 60000 ==> seconds >= 60.0
      ensures draw == DrawCall(Triangles, 0, |SCREEN|) && draw.count == 6
      ensures myX == old(myX) && myY == old(myY) && motion == old(motion)
      ensures mouse == old(mouse) && startTime == old(startTime)
    {
      var _ := Resize();
      seconds := (now - startTime) as real / 1000.0;
      draw := DrawCall(Triangles, 0, |SCREEN|);
    }

    /** `startDrag(e)`: record the pointer and start dragging. */
    method StartDrag(clientX: real, clientY: real)
      modifies this
      ensures PointerAt(clientX, clientY) && motion
      ensures viewport == old(viewport) && startTime == old(startTime)
    {
      myX := clientX;
      myY := canvas.clientHeight as real - clientY;
      mouse := (myX, myY);
      motion := true;
    }

    /** `moveDrag(e)`: record the pointer only while dragging. */
    method MoveDrag(clientX: real, clientY: real)
      modifies this
      ensures old(motion) ==> PointerAt(clientX, clientY)
      ensures !old(motion) ==> myX == old(myX) && myY == old(myY) && mouse == old(mouse)
      ensures motion == old(motion) && viewport == old(viewport) && startTime == old(startTime)
    {
      if motion {
        myX := clientX;
        myY := canvas.clientHeight as real - clientY;
        mouse := (myX, myY);
      }
    }

    /** `endDrag(e)`: stop dragging; the last position stays. */
    method EndDrag()
      modifies this
      ensures !motion
      ensures myX == old(myX) && myY == old(myY) && mouse == old(mouse)
      ensures viewport == old(viewport) && startTime == old(startTime)
    {
      motion := false;
    }

    /** `startTouch(e)`: the first changed touch acts as a mouse press. */
    method StartTouch(touches: seq<Touch>)
      requires |touches| > 0
      modifies this
      ensures PointerAt(touches[0].clientX, touches[0].clientY) && motion
      ensures viewport == old(viewport) && startTime == old(startTime)
    {
      myX := touches[0].clientX;
      myY := canvas.clientHeight as real - touches[0].clientY;
      mouse := (myX, myY);
      motion := true;
    }

    /** `endTouch(e)`: stop dragging; the touches are not read. */
    method EndTouch(touches: seq<Touch>)
      modifies this
      ensures !motion
      ensures myX == old(myX) && myY == old(myY) && mouse == old(mouse)
      ensures viewport == old(viewport) && startTime == old(startTime)
    {
      motion := false;
    }

    /** `moveTouch(e)`: while dragging, the first changed touch acts as a
        mouse move; it is read only then. */
    method MoveTouch(touches: seq<Touch>)
      requires motion ==> |touches| > 0
      modifies this
      ensures old(motion) ==> PointerAt(touches[0].clientX, touches[0].clientY)
      ensures !old(motion) ==> myX == old(myX) && myY == old(myY) && mouse == old(mouse)
      ensures motion == old(motion) && viewport == old(viewport) && startTime == old(startTime)
    {
      if motion {
        myX := touches[0].clientX;
        myY := canvas.clientHeight as real - touches[0].clientY;
        mouse := (myX, myY);
      }
    }
  }
}
