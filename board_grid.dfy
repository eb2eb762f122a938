// The chessboard's object-space corner grid that both native calibration
// classes build (calc_board_corner_positions / calcBoardCornerPositions), the
// overwrite calibrate() applies to it, and std::vector::resize, which
// replicates it once per recorded view.
module BoardGrid {
  import opened Vision

  /** Inner corner (i, j): column j and row i of the board, scaled by the square size, on z = 0. */
  function Corner(i: int, j: int, square: int): Point3 {
    Point3((j * square) as real, (i * square) as real, 0.0)
  }

  /** Row i of the board: corners (i, 0) .. (i, width - 1). */
  function Row(i: int, width: nat, square: int): (r: seq<Point3>)
    ensures |r| == width
  {
    seq(width, j => Corner(i, j, square))
  }

  /** Rows 0 .. height - 1, one after the other. */
  function Grid(width: nat, height: nat, square: int): seq<Point3> {
    if height == 0 then [] else Grid(width, height - 1, square) + Row(height - 1, width, square)
  }

  /** A loop bound `k < n` with n negative runs no iterations. */
  function Iterations(n: int): nat {
    if n < 0 then 0 else n
  }

  /** The grid the nested loops over a cv::Size produce. */
  function BoardCorners(board: Size, square: int): seq<Point3> {
    Grid(Iterations(board.width), Iterations(board.height), square)
  }

  lemma RowMajorIndex(i: nat, j: nat, width: nat, rows: nat)
    requires i < rows && j < width
    ensures i * width + j < rows * width
  {
    assert i * width + j < (i + 1) * width;
    assert (i + 1) * width <= rows * width;
  }

  lemma {:induction false} GridLength(width: nat, height: nat, square: int)
    ensures |Grid(width, height, square)| == height * width
  {
    if height > 0 {
      GridLength(width, height - 1, square);
      assert (height - 1) * width + width == height * width;
    }
  }

  lemma {:induction false} GridAt(width: nat, height: nat, square: int, i: nat, j: nat)
    requires i < height && j < width
    ensures i * width + j < |Grid(width, height, square)|
    ensures Grid(width, height, square)[i * width + j] == Corner(i, j, square)
  {
    GridLength(width, height, square);
    RowMajorIndex(i, j, width, height);
    GridLength(width, height - 1, square);
    var prefix := Grid(width, height - 1, square);
    if i < height - 1 {
      RowMajorIndex(i, j, width, height - 1);
      GridAt(width, height - 1, square, i, j);
    } else {
      assert i * width + j == |prefix| + j;
    }
  }

  /** The grid has height * width points in row-major order: point i * width + j is corner (i, j). */
  lemma GridRowMajor(width: nat, height: nat, square: int)
    ensures |Grid(width, height, square)| == height * width
    ensures forall i, j :: 0 <= i < height && 0 <= j < width ==>
      Grid(width, height, square)[i * width + j] == Corner(i, j, square)
  {
    GridLength(width, height, square);
    var grid := Grid(width, height, square);
    forall i, j | 0 <= i < height && 0 <= j < width
      ensures i * width + j < |grid| && grid[i * width + j] == Corner(i, j, square)
    {
      GridAt(width, height, square, i, j);
    }
  }

  /**
   * calibrate()'s overwrite: the x of point width - 1 (the last corner of the
   * first row) becomes point 0's x plus the grid width square * (width - 1).
   */
  function WidenFirstRow(grid: seq<Point3>, width: int, square: int): (r: seq<Point3>)
    requires 1 <= width <= |grid|
    ensures |r| == |grid|
    ensures forall k :: 0 <= k < |grid| && k != width - 1 ==> r[k] == grid[k]
    ensures r[width - 1].y == grid[width - 1].y && r[width - 1].z == grid[width - 1].z
    ensures r[width - 1].x - r[0].x == (square as real) * ((width - 1) as real)
  {
    grid[width - 1 := grid[width - 1].(x := grid[0].x + (square as real) * ((width - 1) as real))]
  }

  /** On the generated grid that overwrite stores the value already there. */
  lemma WidenFirstRowIsNoOp(width: nat, height: nat, square: int)
    requires width >= 1 && height >= 1
    ensures width <= |Grid(width, height, square)|
    ensures WidenFirstRow(Grid(width, height, square), width, square) == Grid(width, height, square)
  {
    var grid := Grid(width, height, square);
    GridAt(width, height, square, 0, 0);
    GridAt(width, height, square, 0, width - 1);
    assert 0 * width + 0 == 0 && 0 * width + (width - 1) == width - 1;
    assert ((width - 1) * square) as real == (square as real) * ((width - 1) as real);
    var last := grid[width - 1];
    assert last.(x := grid[0].x + (square as real) * ((width - 1) as real)) == last;
    assert grid[width - 1 := last] == grid;
  }

  /** std::vector::resize(n, fill): keeps the first n elements, or pads with copies of fill. */
  function Resize<T>(v: seq<T>, n: nat, fill: T): (r: seq<T>)
    ensures |r| == n
    ensures forall k :: 0 <= k < n ==> r[k] == if k < |v| then v[k] else fill
  {
    if n <= |v| then v[..n] else v + seq(n - |v|, _ => fill)
  }

  /** n copies of g. */
  function Replicate<T>(g: T, n: nat): (r: seq<T>)
    ensures |r| == n && forall k :: 0 <= k < n ==> r[k] == g
  {
    seq(n, _ => g)
  }

  /** Resizing the one-element vector [g] to n, padding with g, gives exactly n copies of g. */
  lemma ResizeReplicates<T>(g: T, n: nat)
    ensures Resize([g], n, g) == Replicate(g, n)
  {
  }
}
