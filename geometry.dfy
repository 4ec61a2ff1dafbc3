/** Conversion between board cells and window pixels. A box covers the
    half-open square from its top-left corner to BoxSize pixels right and
    down, as the graphics library's point-in-rectangle test does. */
module Geometry {
  import opened Config
  import opened Wrappers
  import opened Grid

  /** Pixel coordinates of the top-left corner of box (boxx, boxy). The
      square of every box on the board lies wholly inside the window. */
  function LeftTopCoordsOfBox(boxx: int, boxy: int): (r: (int, int))
    ensures InBoard((boxx, boxy)) ==>
      && 0 <= r.0 && r.0 + BoxSize <= WindowWidth
      && 0 <= r.1 && r.1 + BoxSize <= WindowHeight
  {
    (boxx * Pitch + XMargin, boxy * Pitch + YMargin)
  }

  /// The square of box `c` contains pixel (x, y).
  predicate InBox(c: Cell, x: int, y: int) {
    var (left, top) := LeftTopCoordsOfBox(c.0, c.1);
    left <= x < left + BoxSize && top <= y < top + BoxSize
  }

  /** A closed form of the box under a pixel: the offset from the margin,
      divided by the pitch, names the column and the row, and the remainder
      tells whether the pixel is on the box or in the gap after it. */
  function BoxAt(x: int, y: int): Option<Cell> {
    var dx, dy := x - XMargin, y - YMargin;
    if 0 <= dx && 0 <= dy && dx / Pitch < BoardWidth && dy / Pitch < BoardHeight
       && dx % Pitch < BoxSize && dy % Pitch < BoxSize
    then Some((dx / Pitch, dy / Pitch))
    else None
  }

  /// The division of a non-negative offset by the pitch is unique.
  lemma DivPitch(d: int, q: int, r: int)
    requires 0 <= r < Pitch && d == q * Pitch + r
    ensures d / Pitch == q && d % Pitch == r
  {
  }

  /** The closed form names exactly the box whose square contains the pixel,
      in both directions. */
  lemma BoxAtIffInBox(c: Cell, x: int, y: int)
    ensures BoxAt(x, y) == Some(c) <==> InBoard(c) && InBox(c, x, y)
  {
    if InBoard(c) && InBox(c, x, y) {
      DivPitch(x - XMargin, c.0, x - XMargin - c.0 * Pitch);
      DivPitch(y - YMargin, c.1, y - YMargin - c.1 * Pitch);
    }
  }

  /// The squares of two different boxes never overlap.
  lemma BoxesDisjoint(a: Cell, b: Cell, x: int, y: int)
    requires InBoard(a) && InBoard(b) && InBox(a, x, y) && InBox(b, x, y)
    ensures a == b
  {
    BoxAtIffInBox(a, x, y);
    BoxAtIffInBox(b, x, y);
  }

  /** Scans the boxes column by column and returns the first whose square
      contains the pixel, or None when no box does. */
  method GetBoxAtPixel(x: int, y: int) returns (r: Option<Cell>)
    ensures r.Some? ==> InBoard(r.value) && InBox(r.value, x, y)
    ensures r.None? <==> forall c :: InBoard(c) ==> !InBox(c, x, y)
    ensures r == BoxAt(x, y)
  {
    var boxx := 0;
    while boxx < BoardWidth
      invariant 0 <= boxx <= BoardWidth
      invariant forall c :: InBoard(c) && c.0 < boxx ==> !InBox(c, x, y)
    {
      var boxy := 0;
      while boxy < BoardHeight
        invariant 0 <= boxy <= BoardHeight
        invariant forall c :: InBoard(c) && (c.0 < boxx || (c.0 == boxx && c.1 < boxy)) ==> !InBox(c, x, y)
      {
        var (left, top) := LeftTopCoordsOfBox(boxx, boxy);
        if left <= x < left + BoxSize && top <= y < top + BoxSize {
          BoxAtIffInBox((boxx, boxy), x, y);
          forall c | InBoard(c) && InBox(c, x, y) ensures c == (boxx, boxy) {
            BoxesDisjoint(c, (boxx, boxy), x, y);
          }
          return Some((boxx, boxy));
        }
        boxy := boxy + 1;
      }
      boxx := boxx + 1;
    }
    match BoxAt(x, y) {
      case None =>
      case Some(c) => BoxAtIffInBox(c, x, y);
    }
    return None;
  }

  /// The top-left corner of every box maps back to that box.
  lemma PixelRoundTrip(c: Cell)
    requires InBoard(c)
    ensures BoxAt(LeftTopCoordsOfBox(c.0, c.1).0, LeftTopCoordsOfBox(c.0, c.1).1) == Some(c)
  {
    BoxAtIffInBox(c, LeftTopCoordsOfBox(c.0, c.1).0, LeftTopCoordsOfBox(c.0, c.1).1);
  }

  /** A pixel in the gap to the right of a box, or below it, or in the margin
      left of or above the board, is on no box. */
  lemma GapsAreNoBox(c: Cell, x: int, y: int)
    requires InBoard(c)
    requires var (left, top) := LeftTopCoordsOfBox(c.0, c.1);
             (left + BoxSize <= x < left + Pitch) || (top + BoxSize <= y < top + Pitch)
             || x < XMargin || y < YMargin
    ensures BoxAt(x, y) == None
  {
    var (left, top) := LeftTopCoordsOfBox(c.0, c.1);
    if left + BoxSize <= x < left + Pitch {
      DivPitch(x - XMargin, c.0, x - left);
    } else if top + BoxSize <= y < top + Pitch {
      DivPitch(y - YMargin, c.1, y - top);
    }
  }
}
