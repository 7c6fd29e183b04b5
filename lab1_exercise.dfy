/** The first lab: a rotating checkerboard with a sphere whose colour comes
    from a menu, and a button that reverses the rotation. */
module Lab1Exercise {
  import opened Geometry

  /** The `colors` table the menu values are looked up in. */
  const COLORS: map<string, Vec4> := map[
    "red" := Vec4(1.0, 0.0, 0.0, 1.0),
    "blue" := Vec4(0.0, 0.0, 1.0, 1.0),
    "green" := Vec4(0.0, 1.0, 0.0, 1.0),
    "yellow" := Vec4(1.0, 1.0, 0.0, 1.0),
    "cyan" := Vec4(0.0, 1.0, 1.0, 1.0),
    "magenta" := Vec4(1.0, 0.0, 1.0, 1.0)
  ]

  /** The light and dark squares of the board, `color1` and `color2`. */
  const LIGHT: Vec4 := Vec4(0.9, 0.9, 0.9, 1.0)
  const DARK: Vec4 := Vec4(0.05, 0.05, 0.05, 1.0)

  /** The board runs over `x` and `z` from `-HALF_BOARD` to `HALF_BOARD`. */
  const HALF_BOARD: int := 10
  const ROW: nat := 21
  const BOARD_SQUARES: nat := 441

  /** `colors[name]`: the colour of a known name, absent for any other
      string; names inherited from `Object.prototype` are not modelled. */
  function LookupColor(name: string): (r: Option<Vec4>)
    ensures r.Some? <==> name in COLORS
    ensures r.Some? ==> r.value == COLORS[name]
  {
    if name in COLORS then Some(COLORS[name]) else None
  }

  /** The table has exactly six names, all opaque, no two with the same
      colour, so the menu can reach six different looks. */
  lemma ColorTableDistinct(a: string, b: string)
    requires a in COLORS && b in COLORS && a != b
    ensures |COLORS| == 6
    ensures COLORS[a] != COLORS[b]
    ensures COLORS[a].w == 1.0
  {
    assert COLORS.Keys == {"red", "blue", "green", "yellow", "cyan", "magenta"};
  }

  /** One square the checkerboard loop draws: its grid position (the quad is
      placed `delta * x` along x and `delta * z` along z from the centre of
      the board) and its colour. */
  datatype Square = Square(x: int, z: int, colour: Vec4)

  /** The square drawn when the counter holds `k`: the loops go row by row in
      `x`, 21 squares of `z` each, and `(color++) % 2` picks `color1` exactly
      when the counter is odd. */
  function BoardSquare(k: nat): (s: Square)
    ensures -HALF_BOARD <= s.z <= HALF_BOARD
    ensures k < BOARD_SQUARES ==> -HALF_BOARD <= s.x <= HALF_BOARD
  {
    Square(-HALF_BOARD + k / ROW, -HALF_BOARD + k % ROW, if k % 2 == 1 then LIGHT else DARK)
  }

  /** The colour depends only on the parity of `x + z`, so the board is a
      checkerboard: light exactly on the squares with `x + z` odd. */
  lemma {:induction false} ColourByParity(k: nat)
    requires k < BOARD_SQUARES
    ensures var s := BoardSquare(k);
            s.colour == (if (s.x + s.z) % 2 == 1 then LIGHT else DARK)
  {
    var q, r := k / ROW, k % ROW;
    assert k == ROW * q + r;
    assert (q + r) % 2 == k % 2 by {
      assert k == 20 * q + (q + r);
      assert (20 * q + (q + r)) % 2 == (q + r) % 2;
    }
    assert BoardSquare(k).x + BoardSquare(k).z == q + r - 20;
  }

  /** Squares next to each other along z (consecutive counter values in one
      row) have different colours. */
  lemma NeighboursAlongZDiffer(k: nat)
    requires k + 1 < BOARD_SQUARES && k % ROW < ROW - 1
    ensures BoardSquare(k + 1).x == BoardSquare(k).x && BoardSquare(k + 1).z == BoardSquare(k).z + 1
    ensures BoardSquare(k + 1).colour != BoardSquare(k).colour
  {
  }

  /** Squares next to each other along x (counter values one row apart) have
      different colours, because a row has an odd number of squares. */
  lemma {:induction false} NeighboursAlongXDiffer(k: nat)
    requires k + ROW < BOARD_SQUARES
    ensures BoardSquare(k + ROW).x == BoardSquare(k).x + 1 && BoardSquare(k + ROW).z == BoardSquare(k).z
    ensures BoardSquare(k + ROW).colour != BoardSquare(k).colour
  {
    assert (k + ROW) / ROW == k / ROW + 1;
    assert (k + ROW) % ROW == k % ROW;
    assert (k + ROW) % 2 != k % 2;
  }

  /** Every position of the board is drawn, at counter `21 * (x + 10) + (z + 10)`. */
  lemma {:induction false} EverySquareDrawn(x: int, z: int)
    requires -HALF_BOARD <= x <= HALF_BOARD && -HALF_BOARD <= z <= HALF_BOARD
    ensures var k := ROW * (x + HALF_BOARD) + (z + HALF_BOARD);
            k < BOARD_SQUARES && BoardSquare(k).x == x && BoardSquare(k).z == z
  {
    var k := ROW * (x + HALF_BOARD) + (z + HALF_BOARD);
    assert k / ROW == x + HALF_BOARD && k % ROW == z + HALF_BOARD;
  }

  /** The demo's globals `objectColor`, `rotAngle` and `rotChange`. */
  class Scene {
    var objectColor: Option<Vec4>
    var rotAngle: real
    var rotChange: real

    /** The initial values: red, no rotation yet, half a degree per frame. */
    constructor ()
      ensures objectColor == Some(COLORS["red"]) && rotAngle == 0.0 && rotChange == 0.5
    {
      objectColor := Some(COLORS["red"]);
      rotAngle := 0.0;
      rotChange := 0.5;
    }

    /** The colour menu's change listener, for the selected option's value. */
    method OnColorChange(colorName: string)
      modifies this
      ensures objectColor == LookupColor(colorName)
      ensures rotAngle == old(rotAngle) && rotChange == old(rotChange)
    {
      objectColor := LookupColor(colorName);
    }

    /** The direction button: `rotChange *= -1`, so the speed is kept and the
        direction reversed; two clicks restore the original value. */
    method OnDirectionClick()
      modifies this
      ensures rotChange == -old(rotChange)
      ensures objectColor == old(objectColor) && rotAngle == old(rotAngle)
    {
      rotChange := rotChange * -1.0;
    }

    /** `render`: draw the board and the sphere at the current angle, then
        advance the angle by exactly `rotChange`. */
    method Render() returns (angle: real, board: seq<Square>, sphere: Option<Vec4>)
      modifies this
      ensures angle == old(rotAngle) && sphere == old(objectColor)
      ensures |board| == BOARD_SQUARES
      ensures forall k :: 0 <= k < BOARD_SQUARES ==> board[k] == BoardSquare(k)
      ensures rotAngle == old(rotAngle) + old(rotChange)
      ensures rotChange == old(rotChange) && objectColor == old(objectColor)
    {
      angle := rotAngle;
      board := RenderStockScene();
      sphere := objectColor;
      rotAngle := rotAngle + rotChange;
    }
  }

  /** `RenderStockScene`: the nested loops over `x` and `z`, each from -10 to
      10, with the colour counter starting at 0 and rising by one per square,
      so the `k`-th square drawn is `BoardSquare(k)` and 441 are drawn. */
  method RenderStockScene() returns (board: seq<Square>)
    ensures |board| == BOARD_SQUARES
    ensures forall k :: 0 <= k < BOARD_SQUARES ==> board[k] == BoardSquare(k)
  {
    var color: nat := 0;
    board := [];
    var x := -HALF_BOARD;
    while x <= HALF_BOARD
      invariant -HALF_BOARD <= x <= HALF_BOARD + 1
      invariant color == ROW * (x + HALF_BOARD) == |board|
      invariant forall k :: 0 <= k < |board| ==> board[k] == BoardSquare(k)
    {
      var z := -HALF_BOARD;
      while z <= HALF_BOARD
        invariant -HALF_BOARD <= z <= HALF_BOARD + 1
        invariant color == ROW * (x + HALF_BOARD) + (z + HALF_BOARD) == |board|
        invariant forall k :: 0 <= k < |board| ==> board[k] == BoardSquare(k)
      {
        assert color / ROW == x + HALF_BOARD && color % ROW == z + HALF_BOARD;
        var colour := if color % 2 != 0 then LIGHT else DARK;
        color := color + 1;
        board := board + [Square(x, z, colour)];
        z := z + 1;
      }
      x := x + 1;
    }
  }
}
