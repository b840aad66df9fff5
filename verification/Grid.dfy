/** The window grid of a multi-video recording (internal/utils/transcoding.go:127-160), in integers. */
module Grid {
  import opened Arithmetic
  import opened Text

  const FINAL_WIDTH: nat := 1920
  const FINAL_HEIGHT: nat := 1080

  function CeilSqrtFrom(n: nat, c: nat): (r: nat)
    requires c == 0 || (c - 1) * (c - 1) < n
    ensures r * r >= n && (r == 0 || (r - 1) * (r - 1) < n)
    decreases n - c
  {
    if c * c >= n then c
    else
      Monotone(1, c, c);
      CeilSqrtFrom(n, c + 1)
  }

  /** ceil(sqrt(n)) */
  function Cols(n: nat): (c: nat)
    ensures n >= 1 ==> c >= 1
  {
    CeilSqrtFrom(n, 0)
  }

  /** ceil(n / c) */
  function CeilDiv(n: nat, c: nat): nat
    requires c >= 1
  {
    (n + c - 1) / c
  }

  lemma CeilDivBounds(n: nat, c: nat)
    requires n >= 1 && c >= 1
    ensures var q := CeilDiv(n, c); q >= 1 && (q - 1) * c < n <= q * c
  {
    var q := CeilDiv(n, c);
    assert n + c - 1 == q * c + (n + c - 1) % c;
    assert (q - 1) * c == q * c - c;
  }

  function Rows(n: nat): (r: nat)
    requires n >= 1
    ensures r >= 1
  {
    CeilDivBounds(n, Cols(n));
    CeilDiv(n, Cols(n))
  }

  lemma ColsLeast(n: nat, c: nat)
    requires c * c >= n
    ensures c >= Cols(n)
  {
    var r := CeilSqrtFrom(n, 0);
    if r > 0 {
      Monotone(c, r - 1, c);
      Monotone(c, r - 1, r - 1);
    }
  }

  lemma RowsFromCols(n: nat, c: nat)
    requires n >= 1 && c >= 1 && c * c >= n && (c - 1) * (c - 1) < n
    ensures c - 1 <= CeilDiv(n, c) <= c
  {
    var q := CeilDiv(n, c);
    CeilDivBounds(n, c);
    Monotone(c, q - 1, c);
    if c >= 2 {
      Monotone(q, c - 2, c);
      assert (c - 2) * c == (c - 1) * (c - 1) - 1;
    }
  }

  /** cols is the least c with c * c >= n, and there are cols or cols - 1 rows, enough for n and no more. */
  lemma GridShape(n: nat)
    requires n >= 1
    ensures Cols(n) * Cols(n) >= n
    ensures forall c: nat :: c * c >= n ==> c >= Cols(n)
    ensures Cols(n) - 1 <= Rows(n) <= Cols(n) && Rows(n) >= 1
    ensures (Rows(n) - 1) * Cols(n) < n <= Rows(n) * Cols(n)
  {
    forall c: nat | c * c >= n
      ensures c >= Cols(n)
    {
      ColsLeast(n, c);
    }
    CeilDivBounds(n, Cols(n));
    RowsFromCols(n, CeilSqrtFrom(n, 0));
  }

  function WindowWidth(n: nat): nat
    requires n >= 1
  {
    FINAL_WIDTH / Cols(n)
  }

  function WindowHeight(n: nat): nat
    requires n >= 1
  {
    FINAL_HEIGHT / Rows(n)
  }

  datatype Cell = Cell(x: nat, y: nat)

  function Offset(i: nat, size: nat): nat {
    i * size
  }

  /** The k-th window, row by row. */
  function CellAt(n: nat, k: nat): Cell
    requires n >= 1
  {
    Cell(Offset(k % Cols(n), WindowWidth(n)), Offset(k / Cols(n), WindowHeight(n)))
  }

  predicate Covers(n: nat, k: nat, x: nat, y: nat)
    requires n >= 1
  {
    var cell := CellAt(n, k);
    cell.x <= x < cell.x + WindowWidth(n) && cell.y <= y < cell.y + WindowHeight(n)
  }

  lemma SlotInside(i: nat, count: nat, total: nat)
    requires count >= 1 && i < count
    ensures Offset(i, total / count) + total / count <= total
  {
    var size := total / count;
    Monotone(i, count, size);
    assert count * size <= total;
  }

  lemma SlotsApart(i: nat, j: nat, size: nat, x: nat)
    requires Offset(i, size) <= x < Offset(i, size) + size && Offset(j, size) <= x < Offset(j, size) + size
    ensures i == j
  {
    Monotone(i, j, size);
    Monotone(j, i, size);
  }

  lemma QuotientBelow(k: nat, c: nat, rows: nat)
    requires c >= 1 && k < rows * c
    ensures k / c < rows
  {
    Monotone(rows, k / c, c);
    assert k == k / c * c + k % c;
  }

  /** Every window lies inside the frame. */
  lemma WindowsInsideFrame(n: nat, k: nat)
    requires n >= 1 && k < n
    ensures CellAt(n, k).x + WindowWidth(n) <= FINAL_WIDTH
    ensures CellAt(n, k).y + WindowHeight(n) <= FINAL_HEIGHT
  {
    CeilDivBounds(n, Cols(n));
    QuotientBelow(k, Cols(n), Rows(n));
    SlotInside(k % Cols(n), Cols(n), FINAL_WIDTH);
    SlotInside(k / Cols(n), Rows(n), FINAL_HEIGHT);
  }

  lemma SameDivision(j: nat, k: nat, c: nat)
    requires c >= 1 && j / c == k / c && j % c == k % c
    ensures j == k
  {
    assert j == j / c * c + j % c && k == k / c * c + k % c;
  }

  /** No two windows share a pixel. */
  lemma WindowsDisjoint(n: nat, j: nat, k: nat, x: nat, y: nat)
    requires n >= 1 && j < n && k < n && Covers(n, j, x, y) && Covers(n, k, x, y)
    ensures j == k
  {
    var c := Cols(n);
    SlotsApart(j % c, k % c, WindowWidth(n), x);
    SlotsApart(j / c, k / c, WindowHeight(n), y);
    SameDivision(j, k, c);
  }

  lemma FewRows(n: nat, c: nat, rows: nat)
    requires n <= 1080 * 1081 && (rows - 1) * c < n && rows <= c && rows >= 1
    requires c * c >= n && (c - 1) * (c - 1) < n
    ensures rows <= 1080 && c <= 1081
  {
    Monotone(1081, c - 1, 1081);
    Monotone(1081, c - 1, c - 1);
    Monotone(1080, rows - 1, c);
  }

  lemma ManyRows(n: nat, c: nat, rows: nat)
    requires n > 1080 * 1081 && n <= rows * c && c - 1 <= rows
    ensures rows > 1080
  {
    Monotone(rows, 1080, c);
    Monotone(c, 1081, 1080);
  }

  lemma QuotientPositive(total: nat, c: nat)
    requires c >= 1
    ensures total / c > 0 <==> c <= total
  {
    if c <= total {
      assert total == (total - c) + c;
    }
  }

  /** The windows have a size as long as the recording has at most 1080 * 1081 videos, and no longer. */
  lemma WindowsHaveSize(n: nat)
    requires n >= 1
    ensures WindowWidth(n) > 0 && WindowHeight(n) > 0 <==> n <= 1080 * 1081
  {
    GridShape(n);
    var c := CeilSqrtFrom(n, 0);
    QuotientPositive(FINAL_WIDTH, c);
    QuotientPositive(FINAL_HEIGHT, Rows(n));
    if n <= 1080 * 1081 {
      FewRows(n, c, Rows(n));
    } else {
      ManyRows(n, c, Rows(n));
    }
  }

  function CellText(cell: Cell): string {
    Dec(cell.x) + "_" + Dec(cell.y)
  }

  /** The layout loops: rows of columns, leaving a row early when the videos run out. */
  method Layout(videoCount: nat) returns (layout: seq<Cell>)
    requires videoCount >= 1
    ensures |layout| == videoCount
    ensures forall k :: 0 <= k < videoCount ==> layout[k] == CellAt(videoCount, k)
  {
    GridShape(videoCount);
    var cols, rows := Cols(videoCount), Rows(videoCount);
    layout := [];
    ghost var first := 0;
    var r := 0;
    while r < rows
      invariant 0 <= r <= rows && first == r * cols
      invariant |layout| == if first < videoCount then first else videoCount
      invariant forall k :: 0 <= k < |layout| ==> layout[k] == CellAt(videoCount, k)
    {
      var c := 0;
      while c < cols
        invariant 0 <= c <= cols
        invariant |layout| == if first + c < videoCount then first + c else videoCount
        invariant forall k :: 0 <= k < |layout| ==> layout[k] == CellAt(videoCount, k)
      {
        var index := r * cols + c;
        if index >= videoCount {
          break;
        }
        IndexSplits(r, cols, c);
        assert CellAt(videoCount, index) == Cell(Offset(c, WindowWidth(videoCount)), Offset(r, WindowHeight(videoCount)));
        var posX := c * WindowWidth(videoCount);
        var posY := r * WindowHeight(videoCount);
        layout := layout + [Cell(posX, posY)];
        c := c + 1;
      }
      Products(r, 1, cols);
      first := first + cols;
      r := r + 1;
    }
  }

  /** The frame is 1920 by 1080 and is divided evenly, rounding down. */
  lemma WindowSize(n: nat, cols: nat, rows: nat)
    requires n >= 1 && cols == Cols(n) && rows == Rows(n)
    ensures WindowWidth(n) == 1920 / cols && WindowHeight(n) == 1080 / rows
  {
  }

  /** Row by row from the top, left to right: the window in row r and column c. */
  lemma CellsByRow(n: nat, cols: nat, rows: nat, r: nat, c: nat, k: nat)
    requires n >= 1 && cols == Cols(n) && rows == Rows(n) && c < cols && k == r * cols + c
    ensures CellAt(n, k) == Cell(c * (1920 / cols), r * (1080 / rows))
  {
    IndexSplits(r, cols, c);
  }

  lemma IndexSplits(r: nat, cols: nat, c: nat)
    requires c < cols
    ensures (r * cols + c) % cols == c && (r * cols + c) / cols == r
  {
    Division(r * cols + c, cols, r, c);
  }
}
