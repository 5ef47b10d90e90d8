/** The tile spawner: after an effective move the game writes a 2 (or, on one
    roll in ten, a 4) into an empty cell chosen at random. The two random draws
    are parameters here: `index` is the draw from 0 up to the number of empty
    cells, `roll` the draw from 1 to 10. */
module Spawner {
  import opened Board

  /** p comes before q when the board is read row by row, left to right. */
  predicate RowMajorBefore(p: Pos, q: Pos)
  {
    p.row < q.row || (p.row == q.row && p.col < q.col)
  }

  /** The empty cells of row r, left to right. */
  function RowEmpties(row: seq<nat>, r: nat): (ps: seq<Pos>)
    ensures |ps| == RowTotal(row, r, Empty)
    ensures forall k :: 0 <= k < |ps| ==> ps[k].row == r && 0 <= ps[k].col < |row| && row[ps[k].col] == 0
    ensures forall c :: 0 <= c < |row| && row[c] == 0 ==> Pos(r, c) in ps
    ensures forall k, l :: 0 <= k < l < |ps| ==> ps[k].col < ps[l].col
  {
    if row == [] then []
    else
      var last := |row| - 1;
      RowEmpties(row[..last], r) + (if row[last] == 0 then [Pos(r, last)] else [])
  }

  /** The empty cells of the board in row-major order (the list of legal spawn
      positions). Exactly the empty cells, each once, sorted. */
  function EmptyCells(g: Grid): (ps: seq<Pos>)
    ensures |ps| == ZeroCount(g)
    ensures forall k :: 0 <= k < |ps| ==>
      0 <= ps[k].row < |g| && 0 <= ps[k].col < |g[ps[k].row]| && g[ps[k].row][ps[k].col] == 0
    ensures forall r, c :: 0 <= r < |g| && 0 <= c < |g[r]| && g[r][c] == 0 ==> Pos(r, c) in ps
    ensures forall k, l :: 0 <= k < l < |ps| ==> RowMajorBefore(ps[k], ps[l])
  {
    if g == [] then []
    else
      var last := |g| - 1;
      var before := EmptyCells(g[..last]);
      var here := RowEmpties(g[last], last);
      assert forall k :: 0 <= k < |before| ==> before[k].row < last;
      before + here
  }

  /** The value a roll produces. */
  function SpawnValue(roll: int): (v: nat)
    ensures v == 2 || v == 4
    ensures v == 4 <==> roll == 1
  {
    if roll == 1 then 4 else 2
  }

  /** The board after spawning at the index-th empty cell. */
  function SpawnCell(g: Grid, index: nat, roll: int): Grid
    requires index < |EmptyCells(g)|
  {
    var p := EmptyCells(g)[index];
    Set(g, p.row, p.col, SpawnValue(roll))
  }

  /** spawn_new_block: collect the empty cells, pick one by the drawn index and
      write the rolled value into it. On a full board there is no index to draw. */
  method SpawnNewBlock(board: array2<nat>, index: nat, roll: int)
    requires index < |EmptyCells(Cells(board))|
    modifies board
    ensures Matches(board, SpawnCell(old(Cells(board)), index, roll))
  {
    ghost var g := Cells(board);
    var legalSpawnVector := EmptyCells(Cells(board));
    var newPos := legalSpawnVector[index];
    var value := SpawnValue(roll);
    SetCell(g, newPos.row, newPos.col, value);
    board[newPos.row, newPos.col] := value;
  }

  /** Spawning writes exactly one cell: the index-th empty cell, which becomes a
      2 or a 4 as the roll says; one empty cell fewer, one tile more, the sum
      grows by the new value, and tile values stay powers of two. */
  lemma SpawnContract(g: Grid, index: nat, roll: int)
    requires index < |EmptyCells(g)|
    ensures var p := EmptyCells(g)[index];
            var h := SpawnCell(g, index, roll);
            && 0 <= p.row < |g| && 0 <= p.col < |g[p.row]|
            && g[p.row][p.col] == 0
            && h[p.row][p.col] == SpawnValue(roll)
            && |h| == |g|
            && (forall r :: 0 <= r < |g| ==> |h[r]| == |g[r]|)
            && (forall r, c :: 0 <= r < |g| && 0 <= c < |g[r]| && Pos(r, c) != p ==> h[r][c] == g[r][c])
            && ZeroCount(h) + 1 == ZeroCount(g)
            && TileCount(h) == TileCount(g) + 1
            && CellSum(h) == CellSum(g) + SpawnValue(roll)
            && (AllTileValues(g) ==> AllTileValues(h))
  {
    var p := EmptyCells(g)[index];
    var v := SpawnValue(roll);
    assert PowerOfTwo(v) by {
      assert PowerOfTwo(1);
      DoublePowerOfTwo(1);
      DoublePowerOfTwo(2);
    }
    SetCell(g, p.row, p.col, v);
      SpawnTotals(g, index, roll);
  }

  /** The totals after a spawn. */
  lemma SpawnTotals(g: Grid, index: nat, roll: int)
    requires index < |EmptyCells(g)|
    ensures var h := SpawnCell(g, index, roll);
            && ZeroCount(h) + 1 == ZeroCount(g)
            && TileCount(h) == TileCount(g) + 1
            && CellSum(h) == CellSum(g) + SpawnValue(roll)
  {
    var p := EmptyCells(g)[index];
    var v := SpawnValue(roll);
    TotalSet(g, p.row, p.col, v, Empty);
    TotalSet(g, p.row, p.col, v, Tile);
    TotalSet(g, p.row, p.col, v, Value);
  }
}
