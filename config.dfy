/** The fixed configuration of the game: window and box geometry, board size
    and the length of one session. Every value is the plain integer the game
    uses; the colour constants of the window are not modelled. */
module Config {

  /// Seconds a session may last before it times out.
  const Runtime: int := 100
  const WindowWidth: int := 640
  const WindowHeight: int := 480
  /// Side of one square box, in pixels.
  const BoxSize: int := 40
  /// Gap between two neighbouring boxes, in pixels.
  const GapSize: int := 10
  /// Number of columns of the board.
  const BoardWidth: int := 8
  /// Number of rows of the board.
  const BoardHeight: int := 6

  /// Distance from the start of one box to the start of the next.
  const Pitch: int := BoxSize + GapSize

  /** The margins centre the board in the window. The game converts the
      quotient with a truncating cast; both numerators are non-negative, so
      truncation and Dafny's Euclidean division agree. */
  const XMargin: int := (WindowWidth - BoardWidth * Pitch) / 2
  const YMargin: int := (WindowHeight - BoardHeight * Pitch) / 2

  /// Number of shapes times number of colours of the icon catalogue.
  const ShapeCount: int := 5
  const ColorCount: int := 7

  /** The two start-up checks of the game: an even number of boxes, and a
      catalogue large enough to supply half as many distinct icons. */
  lemma StartupAssertionsHold()
    ensures (BoardWidth * BoardHeight) % 2 == 0
    ensures ColorCount * ShapeCount * 2 >= BoardWidth * BoardHeight
    ensures XMargin == 120 && YMargin == 90
    ensures WindowWidth - BoardWidth * Pitch >= 0 && WindowHeight - BoardHeight * Pitch >= 0
  {
  }
}
