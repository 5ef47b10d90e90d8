/** The end-of-game predicates: the win test, and the test that some move is
    still possible. Both are pure functions of the board. */
module Predicates {
  import opened Board
  import opened Engine

  /** The tile value that wins the game. */
  const WinningValue: nat := 2048

  /** Some cell of row i, from column j on, holds a winning value. */
  function RowWinsFrom(g: Grid, i: nat, j: nat): (r: bool)
    requires i < |g| && j <= |g[i]|
    ensures r <==> exists c :: j <= c < |g[i]| && g[i][c] >= WinningValue
    decreases |g[i]| - j
  {
    j < |g[i]| && (g[i][j] >= WinningValue || RowWinsFrom(g, i, j + 1))
  }

  /** Some row, from row i on, holds a winning value. */
  function WinsFrom(g: Grid, i: nat): (r: bool)
    requires i <= |g|
    ensures r <==> exists r', c :: i <= r' < |g| && 0 <= c < |g[r']| && g[r'][c] >= WinningValue
    decreases |g| - i
  {
    i < |g| && (RowWinsFrom(g, i, 0) || WinsFrom(g, i + 1))
  }

  /** win_condition: any row has any cell of at least 2048. */
  function WinCondition(g: Grid): (r: bool)
    ensures r <==> exists i, j :: 0 <= i < |g| && 0 <= j < |g[i]| && g[i][j] >= WinningValue
  {
    WinsFrom(g, 0)
  }

  /** (r, c) is one of the four orthogonal neighbours of (i, j). */
  predicate Adjacent(i: int, j: int, r: int, c: int)
  {
    (r == i && (c == j - 1 || c == j + 1)) || (c == j && (r == i - 1 || r == i + 1))
  }

  /** has_compatible_neighbours: some orthogonal neighbour of (i, j) on the board
      holds the same value, or holds 0. */
  function HasCompatibleNeighbours(i: nat, j: nat, g: Grid): (ok: bool)
    requires IsSquare(g, |g|) && i < |g| && j < |g|
    ensures ok <==> exists r, c :: 0 <= r < |g| && 0 <= c < |g| && Adjacent(i, j, r, c)
                                  && (g[r][c] == g[i][j] || g[r][c] == 0)
  {
    var n := |g|;
    || (i > 0 && g[i][j] == g[i - 1][j])
    || (i < n - 1 && g[i][j] == g[i + 1][j])
    || (j > 0 && g[i][j] == g[i][j - 1])
    || (j < n - 1 && g[i][j] == g[i][j + 1])
    || (i > 0 && g[i - 1][j] == 0)
    || (i < n - 1 && g[i + 1][j] == 0)
    || (j > 0 && g[i][j - 1] == 0)
    || (j < n - 1 && g[i][j + 1] == 0)
  }

  /** Some cell of row i, from column j on, has a compatible neighbour. */
  function RowPlayableFrom(g: Grid, i: nat, j: nat): (r: bool)
    requires IsSquare(g, |g|) && i < |g| && j <= |g|
    ensures r <==> exists c :: j <= c < |g| && HasCompatibleNeighbours(i, c, g)
    decreases |g| - j
  {
    j < |g| && (HasCompatibleNeighbours(i, j, g) || RowPlayableFrom(g, i, j + 1))
  }

  /** Some cell, from row i on, has a compatible neighbour. */
  function PlayableFrom(g: Grid, i: nat): (r: bool)
    requires IsSquare(g, |g|) && i <= |g|
    ensures r <==> exists r', c :: i <= r' < |g| && 0 <= c < |g| && HasCompatibleNeighbours(r', c, g)
    decreases |g| - i
  {
    i < |g| && (RowPlayableFrom(g, i, 0) || PlayableFrom(g, i + 1))
  }

  /** playable_move_exists: some cell has a compatible neighbour. */
  function PlayableMoveExists(g: Grid): (r: bool)
    requires IsSquare(g, |g|)
    ensures r <==> exists i, j :: 0 <= i < |g| && 0 <= j < |g| && HasCompatibleNeighbours(i, j, g)
  {
    PlayableFrom(g, 0)
  }

  // ---------------------------------------------------------------------------
  // What the predicates mean.

  predicate HasEmptyCell(g: Grid, n: nat)
    requires IsSquare(g, n)
  {
    exists i, j :: 0 <= i < n && 0 <= j < n && g[i][j] == 0
  }

  predicate HasTile(g: Grid, n: nat)
    requires IsSquare(g, n)
  {
    exists i, j :: 0 <= i < n && 0 <= j < n && g[i][j] > 0
  }

  /** (i, j) and the cell below it hold the same value. */
  predicate EqualBelow(g: Grid, n: nat, i: int, j: int)
    requires IsSquare(g, n)
  {
    0 <= i < n - 1 && 0 <= j < n && g[i][j] == g[i + 1][j]
  }

  /** (i, j) and the cell to its right hold the same value. */
  predicate EqualRight(g: Grid, n: nat, i: int, j: int)
    requires IsSquare(g, n)
  {
    0 <= i < n && 0 <= j < n - 1 && g[i][j] == g[i][j + 1]
  }

  predicate HasEqualNeighbours(g: Grid, n: nat)
    requires IsSquare(g, n)
  {
    exists i, j :: 0 <= i < n && 0 <= j < n && (EqualBelow(g, n, i, j) || EqualRight(g, n, i, j))
  }

  /** On a board of at least 2 by 2, a playable move exists exactly when some
      cell is empty or some two orthogonally adjacent cells are equal. */
  lemma PlayableIff(g: Grid, n: nat)
    requires IsSquare(g, n) && n >= 2
    ensures PlayableMoveExists(g) <==> HasEmptyCell(g, n) || HasEqualNeighbours(g, n)
  {
    if PlayableMoveExists(g) {
      var i, j :| 0 <= i < n && 0 <= j < n && HasCompatibleNeighbours(i, j, g);
      if i > 0 && g[i][j] == g[i - 1][j] {
        assert EqualBelow(g, n, i - 1, j);
      } else if i < n - 1 && g[i][j] == g[i + 1][j] {
        assert EqualBelow(g, n, i, j);
      } else if j > 0 && g[i][j] == g[i][j - 1] {
        assert EqualRight(g, n, i, j - 1);
      } else if j < n - 1 && g[i][j] == g[i][j + 1] {
        assert EqualRight(g, n, i, j);
      } else if i > 0 && g[i - 1][j] == 0 {
        assert g[i - 1][j] == 0;
      } else if i < n - 1 && g[i + 1][j] == 0 {
        assert g[i + 1][j] == 0;
      } else if j > 0 && g[i][j - 1] == 0 {
        assert g[i][j - 1] == 0;
      } else {
        assert g[i][j + 1] == 0;
      }
    }
    if HasEmptyCell(g, n) {
      var i, j :| 0 <= i < n && 0 <= j < n && g[i][j] == 0;
      if i > 0 {
        assert HasCompatibleNeighbours(i - 1, j, g);
      } else {
        assert HasCompatibleNeighbours(i + 1, j, g);
      }
    } else if HasEqualNeighbours(g, n) {
      var i, j :| 0 <= i < n && 0 <= j < n && (EqualBelow(g, n, i, j) || EqualRight(g, n, i, j));
      assert HasCompatibleNeighbours(i, j, g);
    }
  }

  /** With no playable move, no position can slide or merge in any direction,
      so a move changes nothing: the board stays as it is and, since nothing
      changed, no tile is spawned. */
  lemma StuckBoardIsQuiescent(g: Grid, n: nat, d: Direction)
    requires IsSquare(g, n) && !PlayableMoveExists(g)
    ensures Quiescent(g, [], d, n)
    ensures Settle(g, [], d, n) == PassState(g, [], 0)
  {
    forall i, j | 0 <= i < n && 0 <= j < n
      ensures !CanSlide(g, d, n, Pos(i, j)) && !CanMerge(g, [], d, n, Pos(i, j))
    {
      assert !HasCompatibleNeighbours(i, j, g);
    }
    SettleQuiescent(g, [], d, n);
  }

  /** A tile that can slide or merge on a fresh move makes the move change the
      board. */
  lemma MovableChanges(g: Grid, n: nat, d: Direction, p: Pos)
    requires IsSquare(g, n) && InBounds(p, n)
    requires CanSlide(g, d, n, p) || CanMerge(g, [], d, n, p)
    ensures Settle(g, [], d, n).changes > 0
  {
    SettleProps(g, [], d, n);
  }

  /** Along a line with an empty cell at x and a tile at y, some two adjacent
      cells are one empty and one not. */
  lemma {:induction false} LineCrossing(s: seq<nat>, x: nat, y: nat)
    requires x < |s| && y < |s| && s[x] == 0 && s[y] > 0
    ensures exists k :: 0 <= k < |s| - 1 && (s[k] == 0) != (s[k + 1] == 0)
    decreases if x < y then y - x else x - y
  {
    if x < y {
      if s[x + 1] > 0 {
        assert (s[x] == 0) != (s[x + 1] == 0);
      } else {
        LineCrossing(s, x + 1, y);
      }
    } else {
      if s[x - 1] > 0 {
        assert (s[x - 1] == 0) != (s[x] == 0);
      } else {
        LineCrossing(s, x - 1, y);
      }
    }
  }

  /** Some tile of the board can slide in some direction. */
  predicate SomeSlide(g: Grid, n: nat)
    requires IsSquare(g, n)
  {
    exists d, i, j :: 0 <= i < n && 0 <= j < n && CanSlide(g, d, n, Pos(i, j))
  }

  /** A row in which a tile and an empty cell sit side by side has a tile
      that can slide along it. */
  lemma RowPairSlides(g: Grid, n: nat, i: nat, k: nat)
    requires IsSquare(g, n) && i < n && k + 1 < n
    requires (g[i][k] == 0) != (g[i][k + 1] == 0)
    ensures SomeSlide(g, n)
  {
    if g[i][k] == 0 {
      assert CanSlide(g, Left, n, Pos(i, k + 1));
    } else {
      assert CanSlide(g, Right, n, Pos(i, k));
    }
  }

  /** The same for a column. */
  lemma ColumnPairSlides(g: Grid, n: nat, j: nat, k: nat)
    requires IsSquare(g, n) && j < n && k + 1 < n
    requires (g[k][j] == 0) != (g[k + 1][j] == 0)
    ensures SomeSlide(g, n)
  {
    if g[k][j] == 0 {
      assert CanSlide(g, Up, n, Pos(k + 1, j));
    } else {
      assert CanSlide(g, Down, n, Pos(k, j));
    }
  }

  /** A board with a tile and an empty cell has a tile that can slide. */
  lemma SomeTileCanSlide(g: Grid, n: nat, zi: nat, zj: nat, ti: nat, tj: nat)
    requires IsSquare(g, n) && zi < n && zj < n && ti < n && tj < n
    requires g[zi][zj] == 0 && g[ti][tj] > 0
    ensures SomeSlide(g, n)
  {
    if g[zi][tj] > 0 {
      var row := g[zi];
      LineCrossing(row, zj, tj);
      var k :| 0 <= k < n - 1 && (row[k] == 0) != (row[k + 1] == 0);
      RowPairSlides(g, n, zi, k);
    } else {
      var col := seq(n, r requires 0 <= r < n => g[r][tj]);
      LineCrossing(col, zi, ti);
      var k :| 0 <= k < n - 1 && (col[k] == 0) != (col[k + 1] == 0);
      ColumnPairSlides(g, n, tj, k);
    }
  }

  /** Two equal adjacent tiles can merge on a fresh move (upwards for a
      vertical pair, leftwards for a horizontal one). */
  lemma EqualPairChanges(g: Grid, n: nat, i: nat, j: nat)
    requires IsSquare(g, n) && (EqualBelow(g, n, i, j) || EqualRight(g, n, i, j)) && g[i][j] > 0
    ensures exists d :: Settle(g, [], d, n).changes > 0
  {
    if EqualBelow(g, n, i, j) {
      assert CanMerge(g, [], Up, n, Pos(i + 1, j));
      MovableChanges(g, n, Up, Pos(i + 1, j));
    } else {
      assert CanMerge(g, [], Left, n, Pos(i, j + 1));
      MovableChanges(g, n, Left, Pos(i, j + 1));
    }
  }

  /** A board with a tile and an empty cell has a move that changes it. */
  lemma TileAndGapChanges(g: Grid, n: nat, zi: nat, zj: nat, ti: nat, tj: nat)
    requires IsSquare(g, n) && zi < n && zj < n && ti < n && tj < n
    requires g[zi][zj] == 0 && g[ti][tj] > 0
    ensures exists d :: Settle(g, [], d, n).changes > 0
  {
    SomeTileCanSlide(g, n, zi, zj, ti, tj);
    var d, i, j :| 0 <= i < n && 0 <= j < n && CanSlide(g, d, n, Pos(i, j));
    MovableChanges(g, n, d, Pos(i, j));
  }

  /** On a board of at least 2 by 2 holding at least one tile, if a playable
      move exists then some direction's move changes the board. */
  lemma PlayableSomeMoveChanges(g: Grid, n: nat)
    requires IsSquare(g, n) && n >= 2 && HasTile(g, n) && PlayableMoveExists(g)
    ensures exists d :: Settle(g, [], d, n).changes > 0
  {
    PlayableIff(g, n);
    var ti, tj :| 0 <= ti < n && 0 <= tj < n && g[ti][tj] > 0;
    if HasEmptyCell(g, n) {
      var zi, zj :| 0 <= zi < n && 0 <= zj < n && g[zi][zj] == 0;
      TileAndGapChanges(g, n, zi, zj, ti, tj);
    } else {
      var i, j :| 0 <= i < n && 0 <= j < n && (EqualBelow(g, n, i, j) || EqualRight(g, n, i, j));
      EqualPairChanges(g, n, i, j);
    }
  }

  /** So on a board of at least 2 by 2 holding at least one tile, a playable
      move exists exactly when some direction's move changes the board. */
  lemma PlayableIffSomeMoveChanges(g: Grid, n: nat)
    requires IsSquare(g, n) && n >= 2 && HasTile(g, n)
    ensures PlayableMoveExists(g) <==> exists d :: Settle(g, [], d, n).changes > 0
  {
    if PlayableMoveExists(g) {
      PlayableSomeMoveChanges(g, n);
    } else {
      forall d | true
        ensures Settle(g, [], d, n).changes == 0
      {
        StuckBoardIsQuiescent(g, n, d);
      }
    }
  }

  /** Without the tile, the equivalence fails: the empty board counts as
      playable, yet no move changes it. */
  lemma EmptyBoardPlayableButFrozen(g: Grid, n: nat, d: Direction)
    requires IsSquare(g, n) && n >= 2
    requires forall i, j :: 0 <= i < n && 0 <= j < n ==> g[i][j] == 0
    ensures PlayableMoveExists(g)
    ensures Settle(g, [], d, n).changes == 0
  {
    assert HasCompatibleNeighbours(0, 0, g);
    assert Quiescent(g, [], d, n);
    SettleQuiescent(g, [], d, n);
  }
}
