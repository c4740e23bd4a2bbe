/** The pixel board: an 8×8 grid of on/off cells. Clicking a cell flips it; the
    reset button turns every cell off. */
module PixelBoard {

  /** Cells per side of the board. */
  const SIZE: nat := 8

  /** Rows of cells; `true` is a lit cell. */
  type Grid = seq<seq<bool>>

  /** The grid is `SIZE` rows of `SIZE` cells. */
  predicate IsBoard(g: Grid) {
    |g| == SIZE && forall r :: 0 <= r < |g| ==> |g[r]| == SIZE
  }

  /** `emptyGrid()`: a board with every cell off. */
  function EmptyGrid(): (g: Grid)
    ensures IsBoard(g)
    ensures forall r, c :: 0 <= r < SIZE && 0 <= c < SIZE ==> !g[r][c]
  {
    seq(SIZE, _ => seq(SIZE, _ => false))
  }

  /** The grid `togglePixel(rowIdx, colIdx)` builds: every row and cell mapped,
      the one at `(rowIdx, colIdx)` negated. The shape of the grid is kept, and
      an index outside it matches no cell. */
  function Toggled(g: Grid, rowIdx: int, colIdx: int): (u: Grid)
    ensures |u| == |g| && forall r :: 0 <= r < |g| ==> |u[r]| == |g[r]|
    ensures forall r, c :: 0 <= r < |g| && 0 <= c < |g[r]| ==>
      u[r][c] == (if r == rowIdx && c == colIdx then !g[r][c] else g[r][c])
  {
    seq(|g|, r requires 0 <= r < |g| =>
      seq(|g[r]|, c requires 0 <= c < |g[r]| =>
        if r == rowIdx && c == colIdx then !g[r][c] else g[r][c]))
  }

  /** Two grids of the same shape with the same cells are equal. */
  lemma GridExt(g: Grid, h: Grid)
    requires |g| == |h| && forall r :: 0 <= r < |g| ==> |g[r]| == |h[r]|
    requires forall r, c :: 0 <= r < |g| && 0 <= c < |g[r]| ==> g[r][c] == h[r][c]
    ensures g == h
  {
    forall r | 0 <= r < |g| ensures g[r] == h[r] {
      assert forall c :: 0 <= c < |g[r]| ==> g[r][c] == h[r][c];
    }
  }

  /** Toggling the same cell twice gives back the original grid. */
  lemma ToggleTwice(g: Grid, rowIdx: int, colIdx: int)
    ensures Toggled(Toggled(g, rowIdx, colIdx), rowIdx, colIdx) == g
  {
    GridExt(Toggled(Toggled(g, rowIdx, colIdx), rowIdx, colIdx), g);
  }

  /** Toggles of two cells may be applied in either order. */
  lemma ToggleCommutes(g: Grid, r1: int, c1: int, r2: int, c2: int)
    ensures Toggled(Toggled(g, r1, c1), r2, c2) == Toggled(Toggled(g, r2, c2), r1, c1)
  {
    GridExt(Toggled(Toggled(g, r1, c1), r2, c2), Toggled(Toggled(g, r2, c2), r1, c1));
  }

  /** A position outside the grid matches no cell, so the grid comes back as it was. */
  lemma ToggleOutside(g: Grid, rowIdx: int, colIdx: int)
    requires !(0 <= rowIdx < |g| && 0 <= colIdx < |g[rowIdx]|)
    ensures Toggled(g, rowIdx, colIdx) == g
  {
    GridExt(Toggled(g, rowIdx, colIdx), g);
  }

  /** The board component's state: the grid it renders. */
  class Board {
    var grid: Grid

    ghost predicate Valid()
      reads this
    {
      IsBoard(grid)
    }

    /** The board starts with every cell off. */
    constructor ()
      ensures Valid() && grid == EmptyGrid()
    {
      grid := EmptyGrid();
    }

    /** `togglePixel`: flips the clicked cell and leaves every other cell. */
    method TogglePixel(rowIdx: int, colIdx: int)
      requires Valid()
      modifies this
      ensures Valid()
      ensures grid == Toggled(old(grid), rowIdx, colIdx)
      ensures 0 <= rowIdx < SIZE && 0 <= colIdx < SIZE ==> grid[rowIdx][colIdx] == !old(grid)[rowIdx][colIdx]
      ensures forall r, c :: 0 <= r < SIZE && 0 <= c < SIZE && (r != rowIdx || c != colIdx) ==>
        grid[r][c] == old(grid)[r][c]
    {
      var updated := Toggled(grid, rowIdx, colIdx);
      grid := updated;
    }

    /** `resetGrid`: every cell off, whatever the grid held. */
    method ResetGrid()
      modifies this
      ensures Valid() && grid == EmptyGrid()
    {
      grid := EmptyGrid();
    }
  }
}
