/** The 16 x 16 height grids m_heights (targets) and m_cHeights (displayed).
    Both are indexed as grid[y][x]: row y is the time history (row 0 the most
    recent audio frame), column x the band. */
module Grids {
  import opened Bands

  type Grid = seq<seq<real>>

  /** A grid has NumBands rows of NumBands cells. */
  predicate IsGrid(g: Grid) {
    |g| == NumBands && forall y :: 0 <= y < NumBands ==> |g[y]| == NumBands
  }

  predicate IsCell(y: int, x: int) {
    0 <= y < NumBands && 0 <= x < NumBands
  }

  /** Every cell is at least zero. */
  predicate NonNegative(g: Grid)
    requires IsGrid(g)
  {
    forall y, x :: 0 <= y < NumBands && 0 <= x < NumBands ==> g[y][x] >= 0.0
  }

  /** The grid Start resets both height arrays to. */
  function ZeroGrid(): (g: Grid)
    ensures IsGrid(g) && NonNegative(g)
    ensures forall y, x :: 0 <= y < NumBands && 0 <= x < NumBands ==> g[y][x] == 0.0
  {
    seq(NumBands, y => seq(NumBands, x => 0.0))
  }
}
