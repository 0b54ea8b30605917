/** The static terrain of a level: a jagged grid of cells, its width, and the
    obstacle query of `Level.obstacleAt` (game.js:82-93, 103-123) as functions. */
module Terrain {
  import opened Geometry

  /** Cell content: `'wall'`, `'lava'`, or `undefined` (Empty). */
  datatype Cell = Empty | Wall | Lava

  /** Rows indexed `[row][col]`; rows may have different lengths. */
  type Grid = seq<seq<Cell>>

  /** Reading `row[j]` in JavaScript: past the end of a short row it yields `undefined`. */
  function CellAt(row: seq<Cell>, j: int): Cell
    requires 0 <= j
  {
    if j < |row| then row[j] else Empty
  }

  function Max(a: int, b: int): int { if a < b then b else a }

  /** The longest of the first `n` rows, the value of `max` after the loop has seen them. */
  function MaxLen(grid: Grid, n: nat): nat
    requires 1 <= n <= |grid|
  {
    if n == 1 then |grid[0]| else Max(MaxLen(grid, n - 1), |grid[n - 1]|)
  }

  /** `width`: 0 without rows, else the longest row's length. */
  function WidthOf(grid: Grid): nat
  {
    if |grid| == 0 then 0 else MaxLen(grid, |grid|)
  }

  lemma {:induction false} MaxLenIsMax(grid: Grid, n: nat)
    requires 1 <= n <= |grid|
    ensures exists i :: 0 <= i < n && MaxLen(grid, n) == |grid[i]|
    ensures forall i :: 0 <= i < n ==> |grid[i]| <= MaxLen(grid, n)
  {
    if n == 1 {
      assert MaxLen(grid, n) == |grid[0]|;
    } else {
      MaxLenIsMax(grid, n - 1);
      if MaxLen(grid, n - 1) < |grid[n - 1]| {
        assert MaxLen(grid, n) == |grid[n - 1]|;
      } else {
        var i :| 0 <= i < n - 1 && MaxLen(grid, n - 1) == |grid[i]|;
        assert MaxLen(grid, n) == |grid[i]|;
      }
    }
  }

  /** `width` is 0 for an empty grid, else it is some row's length and no row is longer. */
  lemma WidthIsMax(grid: Grid)
    ensures |grid| == 0 ==> WidthOf(grid) == 0
    ensures |grid| > 0 ==> exists i :: 0 <= i < |grid| && WidthOf(grid) == |grid[i]|
    ensures forall i :: 0 <= i < |grid| ==> |grid[i]| <= WidthOf(grid)
  {
    if |grid| > 0 {
      MaxLenIsMax(grid, |grid|);
    }
  }

  /** The inner loop of the scan: the first non-empty cell of `row` in columns `j..jEnd`. */
  function ScanRow(row: seq<Cell>, j: int, jEnd: int): (r: Cell)
    requires 0 <= j
    ensures r != Empty ==> exists k :: j <= k < jEnd && r == CellAt(row, k)
                                      && forall m :: j <= m < k ==> CellAt(row, m) == Empty
    ensures r == Empty ==> forall k :: j <= k < jEnd ==> CellAt(row, k) == Empty
    decreases jEnd - j
  {
    if j >= jEnd then Empty
    else if CellAt(row, j) != Empty then CellAt(row, j)
    else ScanRow(row, j + 1, jEnd)
  }

  /** `c` is the content of some cell (k, m) of rows `i..iEnd`, columns
      `j0..jEnd`, and every cell before it in row-major order is empty: all
      cells of the rows above k, and the cells left of m in row k. */
  predicate FirstInScan(grid: Grid, i: int, iEnd: int, j0: int, jEnd: int, c: Cell)
    requires 0 <= i && 0 <= j0
    requires i < iEnd ==> iEnd <= |grid|
  {
    exists k, m :: i <= k < iEnd && j0 <= m < jEnd && c == CellAt(grid[k], m)
      && (forall k', m' :: i <= k' < k && j0 <= m' < jEnd ==> CellAt(grid[k'], m') == Empty)
      && (forall m' :: j0 <= m' < m ==> CellAt(grid[k], m') == Empty)
  }

  /** The outer loop of the scan: rows `i..iEnd`, each over columns `j0..jEnd`, row-major. */
  function ScanRows(grid: Grid, i: int, iEnd: int, j0: int, jEnd: int): (r: Cell)
    requires 0 <= i && 0 <= j0
    requires i < iEnd ==> iEnd <= |grid|
    ensures r != Empty ==> FirstInScan(grid, i, iEnd, j0, jEnd, r)
    ensures r == Empty ==> forall k, m :: i <= k < iEnd && j0 <= m < jEnd ==> CellAt(grid[k], m) == Empty
    decreases iEnd - i
  {
    if i >= iEnd then Empty
    else
      var c := ScanRow(grid[i], j0, jEnd);
      if c != Empty then c else ScanRows(grid, i + 1, iEnd, j0, jEnd)
  }

  /** First row the scan reads: `Math.ceil(pos.y)`. */
  function FirstRow(pos: Vector): int { Ceil(pos.y) }
  /** End of the rows the scan reads: `Math.ceil(pos.y) + Math.floor(size.y)`. */
  function RowEnd(pos: Vector, size: Vector): int { Ceil(pos.y) + Floor(size.y) }
  function FirstCol(pos: Vector): int { Ceil(pos.x) }
  function ColEnd(pos: Vector, size: Vector): int { Ceil(pos.x) + Floor(size.x) }

  /** Once the box is inside the level's top, left and floor, every row the
      scan reads exists: the scan never runs past `height`. */
  lemma ScanStaysInGrid(height: nat, pos: Vector, size: Vector)
    requires pos.y >= 0.0 && pos.x >= 0.0
    requires Box(pos, size).Bottom() <= height as real
    ensures 0 <= FirstRow(pos) && 0 <= FirstCol(pos)
    ensures FirstRow(pos) < RowEnd(pos, size) ==> RowEnd(pos, size) <= height
  {
  }

  /** `obstacleAt(pos, size)` on a grid, as written: falling below the floor is
      lava, the other three edges are wall, otherwise the first non-empty
      cell of the scan (which starts at the ceiling of the position). */
  function ObstacleIn(grid: Grid, pos: Vector, size: Vector): (r: Cell)
    ensures Box(pos, size).Bottom() > |grid| as real ==> r == Lava
    ensures Box(pos, size).Bottom() <= |grid| as real
            && (pos.y < 0.0 || Box(pos, size).Right() > WidthOf(grid) as real || pos.x < 0.0)
            ==> r == Wall
  {
    var box := Box(pos, size);
    if box.Bottom() > |grid| as real then Lava
    else if box.Top() < 0.0 || box.Right() > WidthOf(grid) as real || box.Left() < 0.0 then Wall
    else
      ScanStaysInGrid(|grid|, pos, size);
      ScanRows(grid, FirstRow(pos), RowEnd(pos, size), FirstCol(pos), ColEnd(pos, size))
  }

  /** Inside the world a non-empty answer is the first non-empty cell of the
      scan in row-major order, in a row below `height`; an empty answer means
      every scanned cell is empty. */
  lemma InsideIsScannedCell(grid: Grid, pos: Vector, size: Vector)
    requires Box(pos, size).Bottom() <= |grid| as real
    requires pos.y >= 0.0 && pos.x >= 0.0 && Box(pos, size).Right() <= WidthOf(grid) as real
    ensures 0 <= FirstRow(pos) && 0 <= FirstCol(pos)
    ensures FirstRow(pos) < RowEnd(pos, size) ==> RowEnd(pos, size) <= |grid|
    ensures var r := ObstacleIn(grid, pos, size);
      && (r != Empty ==> FirstInScan(grid, FirstRow(pos), RowEnd(pos, size), FirstCol(pos), ColEnd(pos, size), r))
      && (r == Empty ==> forall k, m :: FirstRow(pos) <= k < RowEnd(pos, size) && FirstCol(pos) <= m < ColEnd(pos, size)
                                      ==> CellAt(grid[k], m) == Empty)
  {
    ScanStaysInGrid(|grid|, pos, size);
  }

  /** The scan starts at the ceiling of the position, so a box reaching only
      partly into a wall cell does not see it: a 1x1 box at (0.5, 0) over a
      wall in cell (0, 0) reports nothing. */
  lemma PartlyCoveredCellIsSkipped()
    ensures ObstacleIn([[Wall, Empty]], Vector(0.5, 0.0), Vector(1.0, 1.0)) == Empty
  {
    var pos, size := Vector(0.5, 0.0), Vector(1.0, 1.0);
    assert WidthOf([[Wall, Empty]]) == 2;
    assert FirstRow(pos) == 0 && RowEnd(pos, size) == 1;
    assert FirstCol(pos) == 1 && ColEnd(pos, size) == 2;
  }
}
