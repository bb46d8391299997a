/** The enemy wave: a lattice of four rows whose column count grows with the level and
    depends on whether the viewport is a narrow (mobile) one. */
module Waves {
  import opened Geometry

  const ROWS: nat := 4
  /** Distance between neighbouring lattice cells, horizontally and vertically. */
  const SPACING: int := 50

  function Min(x: int, y: int): int {
    if x < y then x else y
  }

  /** Columns per row: one more than the base for every level, up to a cap (base 5 and
      cap 10 on a narrow viewport, 8 and 12 otherwise). */
  function Cols(level: int, isMobile: bool): (c: nat)
    requires level >= 1
    ensures isMobile ==> 6 <= c <= 10
    ensures !isMobile ==> 9 <= c <= 12
  {
    if isMobile then Min(5 + level, 10) else Min(8 + level, 12)
  }

  /** The enemy in row `row`, column `col`. */
  function Cell(row: int, col: int, width: int, height: int): Box {
    Box(col * SPACING, row * SPACING, width, height)
  }

  /** The first `n` cells of row `row`, in the order the inner loop pushes them. */
  function RowOf(row: int, n: nat, width: int, height: int): (r: seq<Box>)
    ensures |r| == n
    ensures forall c :: 0 <= c < n ==> r[c] == Cell(row, c, width, height)
  {
    if n == 0 then [] else RowOf(row, n - 1, width, height) + [Cell(row, n - 1, width, height)]
  }

  /** The first `rows` full rows of `cols` cells, row after row. */
  function Lattice(rows: nat, cols: nat, width: int, height: int): (l: seq<Box>)
    ensures |l| == rows * cols
  {
    if rows == 0 then [] else Lattice(rows - 1, cols, width, height) + RowOf(rows - 1, cols, width, height)
  }

  /** Cell (r, c) of the lattice sits at index r * cols + c. */
  lemma {:induction false} LatticeAt(rows: nat, cols: nat, width: int, height: int, r: nat, c: nat)
    requires r < rows && c < cols
    ensures r * cols + c < |Lattice(rows, cols, width, height)|
    ensures Lattice(rows, cols, width, height)[r * cols + c] == Cell(r, c, width, height)
  {
    var prefix := Lattice(rows - 1, cols, width, height);
    assert |prefix| == (rows - 1) * cols;
    if r == rows - 1 {
      assert r * cols + c == |prefix| + c;
    } else {
      LatticeAt(rows - 1, cols, width, height, r, c);
    }
  }

  /** The wave `createEnemies` builds for `level`. */
  function Wave(level: int, isMobile: bool, width: int, height: int): (w: seq<Box>)
    requires level >= 1
    ensures |w| == ROWS * Cols(level, isMobile)
    ensures |w| >= 24
  {
    Lattice(ROWS, Cols(level, isMobile), width, height)
  }

  /** Every wave holds exactly 4 * cols enemies, the one in row r and column c at
      (c * 50, r * 50). */
  lemma WaveLayout(level: int, isMobile: bool, width: int, height: int, r: nat, c: nat)
    requires level >= 1 && r < ROWS && c < Cols(level, isMobile)
    ensures r * Cols(level, isMobile) + c < |Wave(level, isMobile, width, height)|
    ensures Wave(level, isMobile, width, height)[r * Cols(level, isMobile) + c]
         == Box(c * SPACING, r * SPACING, width, height)
  {
    LatticeAt(ROWS, Cols(level, isMobile), width, height, r, c);
  }
}
