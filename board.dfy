/** The 2048 board as a value: rows top to bottom, cells left to right, 0 for an
    empty cell. The game itself keeps the board in a mutable N-by-N array; the
    functions here describe its contents. */
module Board {

  type Grid = seq<seq<nat>>

  /** A board position (row, column); the game stores these as two signed integers. */
  datatype Pos = Pos(row: int, col: int)

  /** The four moves; the game reads them as the keys a, d, w and s. */
  datatype Direction = Left | Right | Up | Down

  /** A square board of n rows of n cells. */
  predicate IsSquare(g: Grid, n: nat)
  {
    |g| == n && forall r :: 0 <= r < n ==> |g[r]| == n
  }

  predicate InBounds(p: Pos, n: nat)
  {
    0 <= p.row < n && 0 <= p.col < n
  }

  /** The contents of board `a` agree cell by cell with `g`. */
  predicate Matches(a: array2<nat>, g: Grid)
    reads a
  {
    && |g| == a.Length0
    && (forall r :: 0 <= r < |g| ==> |g[r]| == a.Length1)
    && forall r, c :: 0 <= r < a.Length0 && 0 <= c < a.Length1 ==> g[r][c] == a[r, c]
  }

  /** The current contents of board `a`. */
  function Cells(a: array2<nat>): (g: Grid)
    reads a
    ensures Matches(a, g)
    ensures a.Length0 == a.Length1 ==> IsSquare(g, a.Length0)
  {
    seq(a.Length0, r requires 0 <= r < a.Length0 reads a =>
      seq(a.Length1, c requires 0 <= c < a.Length1 reads a => a[r, c]))
  }

  /** A board has one value: two grids that both match it are equal. */
  lemma MatchesUnique(a: array2<nat>, g: Grid, h: Grid)
    requires Matches(a, g) && Matches(a, h)
    ensures g == h
  {
    forall r | 0 <= r < |g|
      ensures g[r] == h[r]
    {
      assert forall c :: 0 <= c < |g[r]| ==> g[r][c] == a[r, c] == h[r][c];
    }
  }

  /** `g` with cell (r, c) replaced by `v`. */
  function Set(g: Grid, r: nat, c: nat, v: nat): Grid
    requires r < |g| && c < |g[r]|
  {
    var row: seq<nat> := g[r][c := v];
    g[r := row]
  }

  /** Set writes exactly the one cell, and keeps a board of tile values one
      when the new value is a tile value. */
  lemma SetCell(g: Grid, r: nat, c: nat, v: nat)
    requires r < |g| && c < |g[r]|
    ensures var h := Set(g, r, c, v);
            && h[r][c] == v
            && |h| == |g|
            && (forall r' :: 0 <= r' < |g| ==> |h[r']| == |g[r']|)
            && (forall r', c' :: 0 <= r' < |g| && 0 <= c' < |g[r']| && Pos(r', c') != Pos(r, c) ==> h[r'][c'] == g[r'][c'])
            && (AllTileValues(g) && IsTileValue(v) ==> AllTileValues(h))
  {
  }

  // ---------------------------------------------------------------------------
  // Weighted totals over all cells. One weight function per quantity: the sum of
  // the cell values, the number of tiles, the number of empty cells.

  /** The sum of Weigh(w, r, c, row[c]) over the cells of row r. */
  function RowTotal(row: seq<nat>, r: int, w: Weight): nat
  {
    if row == [] then 0
    else RowTotal(row[..|row| - 1], r, w) + Weigh(w, r, |row| - 1, row[|row| - 1])
  }

  /** The sum of Weigh(w, r, c, g[r][c]) over all cells of g. */
  function Total(g: Grid, w: Weight): nat
  {
    if g == [] then 0
    else Total(g[..|g| - 1], w) + RowTotal(g[|g| - 1], |g| - 1, w)
  }

  /** How far a cell is from the edge the tiles of a move toward d go to. */
  function Dist(d: Direction, n: nat, r: int, c: int): nat
  {
    match d
    case Left => if c >= 0 then c else 0
    case Right => if c < n then n - 1 - c else 0
    case Up => if r >= 0 then r else 0
    case Down => if r < n then n - 1 - r else 0
  }

  /** What a total counts for each cell: its value, 1 per tile, 1 per empty
      cell, or per tile one plus its distance to the edge of a move. */
  datatype Weight = Value | Tile | Empty | Distance(d: Direction, n: nat)

  function Weigh(w: Weight, r: int, c: int, v: nat): nat
  {
    match w
    case Value => v
    case Tile => if v > 0 then 1 else 0
    case Empty => if v == 0 then 1 else 0
    case Distance(d, n) => if v > 0 then 1 + Dist(d, n, r, c) else 0
  }

  /** The sum of all cell values. */
  function CellSum(g: Grid): nat { Total(g, Value) }

  /** The number of non-empty cells. */
  function TileCount(g: Grid): nat { Total(g, Tile) }

  /** The number of empty cells. */
  function ZeroCount(g: Grid): nat { Total(g, Empty) }

  lemma {:induction false} RowTotalSet(row: seq<nat>, r: int, c: nat, v: nat, w: Weight)
    requires c < |row|
    ensures RowTotal(row[c := v], r, w) == RowTotal(row, r, w) - Weigh(w, r, c, row[c]) + Weigh(w, r, c, v)
  {
    var k := |row| - 1;
    if c < k {
      assert row[c := v][..k] == row[..k][c := v];
      RowTotalSet(row[..k], r, c, v, w);
    } else {
      assert row[c := v][..k] == row[..k];
    }
  }

  /** Replacing one cell changes a total by the difference of that cell's weights. */
  lemma {:induction false} TotalSet(g: Grid, r: nat, c: nat, v: nat, w: Weight)
    requires r < |g| && c < |g[r]|
    ensures Total(Set(g, r, c, v), w) == Total(g, w) - Weigh(w, r, c, g[r][c]) + Weigh(w, r, c, v)
  {
    var k := |g| - 1;
    if r < k {
      assert Set(g, r, c, v)[..k] == Set(g[..k], r, c, v);
      TotalSet(g[..k], r, c, v, w);
    } else {
      assert Set(g, r, c, v)[..k] == g[..k];
      RowTotalSet(g[r], r, c, v, w);
    }
  }

  lemma {:induction false} RowTilesPlusZeros(row: seq<nat>, r: int)
    ensures RowTotal(row, r, Tile) + RowTotal(row, r, Empty) == |row|
  {
    if row != [] {
      RowTilesPlusZeros(row[..|row| - 1], r);
    }
  }

  /** Every cell of a square board is either a tile or empty. */
  lemma {:induction false} TilesPlusZeros(g: Grid, n: nat)
    requires IsSquare(g, n)
    ensures TileCount(g) + ZeroCount(g) == n * n
  {
    TilesPlusZerosRows(g, n);
  }

  lemma {:induction false} TilesPlusZerosRows(g: Grid, n: nat)
    requires forall r :: 0 <= r < |g| ==> |g[r]| == n
    ensures Total(g, Tile) + Total(g, Empty) == |g| * n
  {
    if g != [] {
      TilesPlusZerosRows(g[..|g| - 1], n);
      RowTilesPlusZeros(g[|g| - 1], |g| - 1);
    }
  }

  // ---------------------------------------------------------------------------
  // Tile values.

  predicate PowerOfTwo(v: nat)
    decreases v
  {
    v == 1 || (v >= 2 && v % 2 == 0 && PowerOfTwo(v / 2))
  }

  /** A cell value the game can hold: empty, or a power of two of at least 2
      (tiles are spawned as 2 or 4 and only ever doubled, so 1 never occurs). */
  predicate IsTileValue(v: nat)
  {
    v == 0 || (v >= 2 && PowerOfTwo(v))
  }

  predicate AllTileValues(g: Grid)
  {
    forall r, c :: 0 <= r < |g| && 0 <= c < |g[r]| ==> IsTileValue(g[r][c])
  }

  /** Doubling keeps a cell a power of two. */
  lemma DoublePowerOfTwo(v: nat)
    requires PowerOfTwo(v)
    ensures PowerOfTwo(2 * v)
  {
    assert (2 * v) / 2 == v;
  }
}
