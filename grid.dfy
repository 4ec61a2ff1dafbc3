/** Board cells and the grids indexed by them. A grid is a list of
    BoardWidth columns of BoardHeight entries, indexed `g[x][y]`; the board
    (a grid of icons) and the reveal state (a grid of booleans) have this shape. */
module Grid {
  import opened Config
  import opened Icons

  /// A box position (boxx, boxy): column, then row.
  type Cell = (int, int)

  predicate InBoard(c: Cell) {
    0 <= c.0 < BoardWidth && 0 <= c.1 < BoardHeight
  }

  predicate IsGrid<T>(g: seq<seq<T>>) {
    |g| == BoardWidth && forall x :: 0 <= x < BoardWidth ==> |g[x]| == BoardHeight
  }

  function At<T>(g: seq<seq<T>>, c: Cell): T
    requires IsGrid(g) && InBoard(c)
  {
    g[c.0][c.1]
  }

  /// The grid with the entry at `c` replaced by `v` and every other entry kept.
  function Update<T>(g: seq<seq<T>>, c: Cell, v: T): (r: seq<seq<T>>)
    requires IsGrid(g) && InBoard(c)
    ensures IsGrid(r)
    ensures At(r, c) == v
    ensures forall d :: InBoard(d) && d != c ==> At(r, d) == At(g, d)
  {
    g[c.0 := g[c.0][c.1 := v]]
  }

  /// Two grids of the board's shape are equal when they agree on every cell.
  lemma GridsEqual<T>(a: seq<seq<T>>, b: seq<seq<T>>)
    requires IsGrid(a) && IsGrid(b)
    requires forall c :: InBoard(c) ==> At(a, c) == At(b, c)
    ensures a == b
  {
    forall x | 0 <= x < BoardWidth ensures a[x] == b[x] {
      forall y | 0 <= y < BoardHeight ensures a[x][y] == b[x][y] {
        assert At(a, (x, y)) == At(b, (x, y));
      }
    }
  }

  /// A grid with every entry equal to `v`.
  function Filled<T>(v: T): seq<seq<T>> {
    seq(BoardWidth, _ => seq(BoardHeight, _ => v))
  }

  /** Builds the reveal grid column by column, each column a fresh list of
      BoardHeight copies of `val`. */
  method GenerateRevealedBoxesData(val: bool) returns (grid: seq<seq<bool>>)
    ensures IsGrid(grid)
    ensures forall c :: InBoard(c) ==> At(grid, c) == val
    ensures grid == Filled(val)
  {
    grid := [];
    var i := 0;
    while i < BoardWidth
      invariant 0 <= i <= BoardWidth
      invariant grid == Filled(val)[..i]
    {
      grid := grid + [seq(BoardHeight, _ => val)];
      i := i + 1;
    }
  }

  /// Every entry of every column is true.
  predicate AllRevealed(grid: seq<seq<bool>>) {
    forall i, j :: 0 <= i < |grid| && 0 <= j < |grid[i]| ==> grid[i][j]
  }

  /** The win test: scans the columns and reports false at the first column
      that holds a false entry. */
  method HasWon(revealed: seq<seq<bool>>) returns (won: bool)
    ensures won <==> AllRevealed(revealed)
    ensures !won <==> exists i, j :: 0 <= i < |revealed| && 0 <= j < |revealed[i]| && !revealed[i][j]
  {
    var i := 0;
    while i < |revealed|
      invariant 0 <= i <= |revealed|
      invariant forall k, j :: 0 <= k < i && 0 <= j < |revealed[k]| ==> revealed[k][j]
    {
      if false in revealed[i] {
        ghost var j :| 0 <= j < |revealed[i]| && revealed[i][j] == false;
        return false;
      }
      i := i + 1;
    }
    return true;
  }

  /** On a grid of the board's shape, being won is the same as every cell
      being revealed; the all-hidden grid is never won, the all-revealed one is. */
  lemma WonIffEveryCell(grid: seq<seq<bool>>)
    requires IsGrid(grid)
    ensures AllRevealed(grid) <==> forall c :: InBoard(c) ==> At(grid, c)
  {
    if forall c :: InBoard(c) ==> At(grid, c) {
      forall i, j | 0 <= i < |grid| && 0 <= j < |grid[i]| ensures grid[i][j] {
        assert At(grid, (i, j));
      }
    }
  }

  lemma FreshGridNeverWon()
    ensures IsGrid(Filled(false)) && !AllRevealed(Filled(false))
    ensures IsGrid(Filled(true)) && AllRevealed(Filled(true))
  {
    assert Filled(false)[0][0] == false;
  }

  /// The shape and colour hidden in box (boxx, boxy).
  function GetShapeAndColor(board: seq<seq<Icon>>, boxx: int, boxy: int): (r: (Shape, Color))
    requires IsGrid(board) && InBoard((boxx, boxy))
    ensures Icon(r.0, r.1) == At(board, (boxx, boxy))
  {
    (board[boxx][boxy].shape, board[boxx][boxy].color)
  }

  /** Comparing shape and colour separately, as the game does, is comparing
      the icons. */
  lemma SameShapeAndColorIffSameIcon(board: seq<seq<Icon>>, a: Cell, b: Cell)
    requires IsGrid(board) && InBoard(a) && InBoard(b)
    ensures GetShapeAndColor(board, a.0, a.1) == GetShapeAndColor(board, b.0, b.1) <==> At(board, a) == At(board, b)
  {
  }
}
