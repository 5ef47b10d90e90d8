/** The move engine. A move is resolved by repeated passes over the board; each
    pass visits every position, starting from the edge the tiles move toward,
    and shifts each tile one step (into an empty neighbour) or merges it into an
    equal neighbour, unless either position already holds a merge result of
    this move. Passes repeat until one changes nothing; if anything changed, one
    new tile is spawned.

    The ghost functions Step, ScanRow, ScanRows, Pass and Settle state what the
    loops of `Sweep` and `Update` compute; the lemmas state what that computation
    preserves. */
module Engine {
  import opened Board
  import opened Spawner

  function DeltaX(d: Direction): int
  {
    match d
    case Left => -1
    case Right => 1
    case _ => 0
  }

  function DeltaY(d: Direction): int
  {
    match d
    case Up => -1
    case Down => 1
    case _ => 0
  }

  /** The cell a tile at p moves into. */
  function Neighbour(p: Pos, d: Direction): Pos
  {
    Pos(p.row + DeltaY(d), p.col + DeltaX(d))
  }

  /** is_inside_board: the guard that the neighbour in direction d is on the board. */
  function IsInsideBoard(i: int, j: int, d: Direction, boardLen: int): (r: bool)
    ensures 0 <= i < boardLen && 0 <= j < boardLen ==>
              (r <==> 0 <= i + DeltaY(d) < boardLen && 0 <= j + DeltaX(d) < boardLen)
  {
    match d
    case Left => j - 1 >= 0
    case Right => j + 1 < boardLen
    case Up => i - 1 >= 0
    case Down => i + 1 < boardLen
  }

  /** is_inside: membership in the list of positions merged into during this move. */
  function IsInside(p: Pos, list: seq<Pos>): (r: bool)
    ensures r <==> p in list
  {
    if list == [] then false else list[0] == p || IsInside(p, list[1..])
  }

  /** The loop triples (start, end, step) of the outer row loop and the inner
      column loop: backwards only along the axis of a Down or Right move. */
  function RowLoop(d: Direction, n: int): (int, int, int)
  {
    if d == Down then (n - 1, -1, -1) else (0, n, 1)
  }

  function ColLoop(d: Direction, n: int): (int, int, int)
  {
    if d == Right then (n - 1, -1, -1) else (0, n, 1)
  }

  /** The row visited by the a-th iteration of the outer loop. */
  function RowAt(d: Direction, n: nat, a: int): int
  {
    if d == Down then n - 1 - a else a
  }

  /** The column visited by the b-th iteration of the inner loop. */
  function ColAt(d: Direction, n: nat, b: int): int
  {
    if d == Right then n - 1 - b else b
  }

  /** The inner loop's counter runs through `ColAt(d, n, 0)`, ...,
      `ColAt(d, n, n - 1)` and stops at the loop's bound. */
  lemma ColIndex(d: Direction, n: nat, b: nat)
    requires b <= n
    ensures ColLoop(d, n).0 == ColAt(d, n, 0)
    ensures ColAt(d, n, b) == ColLoop(d, n).1 <==> b == n
    ensures b < n ==> 0 <= ColAt(d, n, b) < n && ColAt(d, n, b) + ColLoop(d, n).2 == ColAt(d, n, b + 1)
  {
  }

  /** The same for the outer loop's counter. */
  lemma RowIndex(d: Direction, n: nat, a: nat)
    requires a <= n
    ensures RowLoop(d, n).0 == RowAt(d, n, 0)
    ensures RowAt(d, n, a) == RowLoop(d, n).1 <==> a == n
    ensures a < n ==> 0 <= RowAt(d, n, a) < n && RowAt(d, n, a) + RowLoop(d, n).2 == RowAt(d, n, a + 1)
  {
  }

  // ---------------------------------------------------------------------------
  // One position.

  /** What one pass carries from position to position: the board, the merge-lock
      list and the number of changes so far. */
  datatype PassState = PassState(grid: Grid, locks: seq<Pos>, changes: nat)

  /** The tile at p may move into its empty neighbour. */
  predicate CanSlide(g: Grid, d: Direction, n: nat, p: Pos)
    requires IsSquare(g, n) && InBounds(p, n)
  {
    && g[p.row][p.col] > 0
    && IsInsideBoard(p.row, p.col, d, n)
    && var q := Neighbour(p, d); g[q.row][q.col] == 0
  }

  /** The tile at p may merge into its equal neighbour: neither is locked. */
  predicate CanMerge(g: Grid, locks: seq<Pos>, d: Direction, n: nat, p: Pos)
    requires IsSquare(g, n) && InBounds(p, n)
  {
    && g[p.row][p.col] > 0
    && IsInsideBoard(p.row, p.col, d, n)
    && var q := Neighbour(p, d);
    && g[q.row][q.col] == g[p.row][p.col]
    && !IsInside(q, locks)
    && !IsInside(p, locks)
  }

  /** p and (r, c) lie on the same line of the move: the same row for Left and
      Right, the same column for Up and Down. */
  predicate SameLine(d: Direction, p: Pos, r: int, c: int)
  {
    if d == Left || d == Right then r == p.row else c == p.col
  }

  /** The body of the inner loop at position p: slide, else merge, else nothing. */
  ghost function Step(s: PassState, d: Direction, n: nat, p: Pos): (t: PassState)
    requires IsSquare(s.grid, n) && InBounds(p, n)
    ensures IsSquare(t.grid, n)
    ensures Progress(s, t)
  {
    var g := s.grid;
    var q := Neighbour(p, d);
    if CanSlide(g, d, n, p) then
      PassState(Set(Set(g, q.row, q.col, g[p.row][p.col]), p.row, p.col, 0), s.locks, s.changes + 1)
    else if CanMerge(g, s.locks, d, n, p) then
      PassState(Set(Set(g, q.row, q.col, 2 * g[q.row][q.col]), p.row, p.col, 0), s.locks + [q], s.changes + 1)
    else
      s
  }

  /** A step touches p and its neighbour only, and so nothing outside p's line:
      the same row for Left and Right, the same column for Up and Down. */
  lemma StepLocal(s: PassState, d: Direction, n: nat, p: Pos)
    requires IsSquare(s.grid, n) && InBounds(p, n)
    ensures var t := Step(s, d, n, p);
            && (forall r, c :: 0 <= r < n && 0 <= c < n && Pos(r, c) != p && Pos(r, c) != Neighbour(p, d) ==>
                  t.grid[r][c] == s.grid[r][c])
            && (forall r, c :: 0 <= r < n && 0 <= c < n && !SameLine(d, p, r, c) ==>
                  t.grid[r][c] == s.grid[r][c])
  {
  }

  // ---------------------------------------------------------------------------
  // What a step preserves.

  /** The termination measure of the pass loop: each tile counts one plus its
      distance to the target edge. A slide lowers it by one, a merge by more. */
  ghost function Measure(g: Grid, d: Direction, n: nat): nat
  {
    Total(g, Distance(d, n))
  }

  predicate NoDuplicates(s: seq<Pos>)
  {
    forall k, l :: 0 <= k < l < |s| ==> s[k] != s[l]
  }

  /** Changes are only ever counted up, and a state whose count did not move
      is the same state. */
  ghost predicate Progress(s: PassState, t: PassState)
  {
    s.changes <= t.changes && (t.changes == s.changes ==> t == s)
  }

  /** What holds between a state s and any later state t of the same move:
      the cell sum is kept; every merge (one lock entry) removes exactly one
      tile; the lock list only grows and never holds a position twice; tile
      values stay powers of two; each change lowers the measure; no change
      means nothing happened; and after a change some cell is empty. */
  ghost predicate Conserves(s: PassState, t: PassState, d: Direction, n: nat)
    requires IsSquare(s.grid, n) && IsSquare(t.grid, n)
  {
    && CellSum(t.grid) == CellSum(s.grid)
    && TileCount(t.grid) + |t.locks| == TileCount(s.grid) + |s.locks|
    && |s.locks| <= |t.locks| && t.locks[..|s.locks|] == s.locks
    && (NoDuplicates(s.locks) ==> NoDuplicates(t.locks))
    && (AllTileValues(s.grid) ==> AllTileValues(t.grid))
    && Measure(t.grid, d, n) + t.changes <= Measure(s.grid, d, n) + s.changes
    && Progress(s, t)
    && (t.changes > s.changes ==> ZeroCount(t.grid) > 0)
  }

  lemma ConservesTrans(s: PassState, t: PassState, u: PassState, d: Direction, n: nat)
    requires IsSquare(s.grid, n) && IsSquare(t.grid, n) && IsSquare(u.grid, n)
    requires Conserves(s, t, d, n) && Conserves(t, u, d, n)
    ensures Conserves(s, u, d, n)
  {
    assert u.locks[..|s.locks|] == t.locks[..|t.locks|][..|s.locks|];
  }

  /** The totals after writing two different cells. */
  lemma SetTwice(g: Grid, n: nat, q: Pos, vq: nat, p: Pos, vp: nat, w: Weight)
    requires IsSquare(g, n) && InBounds(p, n) && InBounds(q, n) && p != q
    ensures var h := Set(Set(g, q.row, q.col, vq), p.row, p.col, vp);
            Total(h, w) == Total(g, w) - Weigh(w, q.row, q.col, g[q.row][q.col]) + Weigh(w, q.row, q.col, vq)
                                       - Weigh(w, p.row, p.col, g[p.row][p.col]) + Weigh(w, p.row, p.col, vp)
  {
    var h1 := Set(g, q.row, q.col, vq);
    TotalSet(g, q.row, q.col, vq, w);
    TotalSet(h1, p.row, p.col, vp, w);
  }

  /** One step keeps everything `Conserves` promises. */
  lemma StepConserves(s: PassState, d: Direction, n: nat, p: Pos)
    requires IsSquare(s.grid, n) && InBounds(p, n)
    ensures Conserves(s, Step(s, d, n, p), d, n)
  {
    if CanSlide(s.grid, d, n, p) {
      SlideConserves(s, d, n, p);
    } else if CanMerge(s.grid, s.locks, d, n, p) {
      MergeConserves(s, d, n, p);
    } else {
      assert Step(s, d, n, p) == s;
    }
  }

  /** What each kind of step does to the tiles and the locks: a slide keeps
      the tile count and the locks, a merge removes exactly one tile and
      appends the neighbour to the locks, and a step that does neither leaves
      the state as it is. */
  lemma StepTileCount(s: PassState, d: Direction, n: nat, p: Pos)
    requires IsSquare(s.grid, n) && InBounds(p, n)
    ensures var g, t := s.grid, Step(s, d, n, p);
            && (CanSlide(g, d, n, p) ==> TileCount(t.grid) == TileCount(g) && t.locks == s.locks)
            && (!CanSlide(g, d, n, p) && CanMerge(g, s.locks, d, n, p) ==>
                  TileCount(t.grid) + 1 == TileCount(g) && t.locks == s.locks + [Neighbour(p, d)])
            && (!CanSlide(g, d, n, p) && !CanMerge(g, s.locks, d, n, p) ==> t == s)
  {
    StepConserves(s, d, n, p);
  }

  lemma SlideConserves(s: PassState, d: Direction, n: nat, p: Pos)
    requires IsSquare(s.grid, n) && InBounds(p, n) && CanSlide(s.grid, d, n, p)
    ensures Conserves(s, Step(s, d, n, p), d, n)
  {
    var g := s.grid;
    var q := Neighbour(p, d);
    var t := Step(s, d, n, p);
    assert t == PassState(Set(Set(g, q.row, q.col, g[p.row][p.col]), p.row, p.col, 0), s.locks, s.changes + 1);
    WriteTwoConserves(s, t, d, n, p, g[p.row][p.col]);
  }

  lemma MergeConserves(s: PassState, d: Direction, n: nat, p: Pos)
    requires IsSquare(s.grid, n) && InBounds(p, n)
    requires !CanSlide(s.grid, d, n, p) && CanMerge(s.grid, s.locks, d, n, p)
    ensures Conserves(s, Step(s, d, n, p), d, n)
  {
    var g := s.grid;
    var q := Neighbour(p, d);
    var t := Step(s, d, n, p);
    assert t == PassState(Set(Set(g, q.row, q.col, 2 * g[q.row][q.col]), p.row, p.col, 0), s.locks + [q], s.changes + 1);
    assert q !in s.locks;
    if AllTileValues(g) {
      DoubleTileValue(g, q);
    }
    WriteTwoConserves(s, t, d, n, p, 2 * g[q.row][q.col]);
  }

  /** The common shape of a slide and a merge: the tile at p (value v) leaves,
      and its neighbour q, which held 0 or v, now holds vq. */
  lemma WriteTwoConserves(s: PassState, t: PassState, d: Direction, n: nat, p: Pos, vq: nat)
    requires IsSquare(s.grid, n) && InBounds(p, n)
    requires var q := Neighbour(p, d);
             && IsInsideBoard(p.row, p.col, d, n)
             && s.grid[p.row][p.col] > 0
             && ((s.grid[q.row][q.col] == 0 && vq == s.grid[p.row][p.col] && t.locks == s.locks) ||
                 (s.grid[q.row][q.col] == s.grid[p.row][p.col] && vq == 2 * s.grid[p.row][p.col] &&
                  t.locks == s.locks + [q] && q !in s.locks))
             && t.grid == Set(Set(s.grid, q.row, q.col, vq), p.row, p.col, 0)
             && t.changes == s.changes + 1
    requires AllTileValues(s.grid) ==> IsTileValue(vq)
    ensures IsSquare(t.grid, n) && Conserves(s, t, d, n)
  {
    var g := s.grid;
    var q := Neighbour(p, d);
    var v := g[p.row][p.col];
    WriteTwoTotals(g, n, p, q, vq);
    MeasureAfterWrite(g, d, n, p, vq);
    WriteTwoValues(g, n, p, q, vq);
    assert t.locks[..|s.locks|] == s.locks;
  }

  lemma WriteTwoTotals(g: Grid, n: nat, p: Pos, q: Pos, vq: nat)
    requires IsSquare(g, n) && InBounds(p, n) && InBounds(q, n) && p != q
    requires g[p.row][p.col] > 0 && vq > 0
    ensures var h := Set(Set(g, q.row, q.col, vq), p.row, p.col, 0);
            && CellSum(h) == CellSum(g) - g[q.row][q.col] + vq - g[p.row][p.col]
            && TileCount(h) == TileCount(g) - Weigh(Tile, q.row, q.col, g[q.row][q.col])
            && ZeroCount(h) == ZeroCount(g) - Weigh(Empty, q.row, q.col, g[q.row][q.col]) + 1
            && ZeroCount(h) > 0
  {
    SetTwice(g, n, q, vq, p, 0, Value);
    SetTwice(g, n, q, vq, p, 0, Tile);
    SetTwice(g, n, q, vq, p, 0, Empty);
    TotalSet(g, q.row, q.col, vq, Empty);
  }

  lemma MeasureAfterWrite(g: Grid, d: Direction, n: nat, p: Pos, vq: nat)
    requires IsSquare(g, n) && InBounds(p, n) && IsInsideBoard(p.row, p.col, d, n)
    requires g[p.row][p.col] > 0 && vq > 0
    ensures var q := Neighbour(p, d);
            var h := Set(Set(g, q.row, q.col, vq), p.row, p.col, 0);
            Measure(h, d, n) + 1 + (if g[q.row][q.col] == 0 then 0 else Dist(d, n, p.row, p.col)) == Measure(g, d, n)
  {
    var q := Neighbour(p, d);
    SetTwice(g, n, q, vq, p, 0, Distance(d, n));
    assert Dist(d, n, q.row, q.col) + 1 == Dist(d, n, p.row, p.col);
  }

  lemma WriteTwoValues(g: Grid, n: nat, p: Pos, q: Pos, vq: nat)
    requires IsSquare(g, n) && InBounds(p, n) && InBounds(q, n) && p != q
    requires AllTileValues(g) ==> IsTileValue(vq)
    ensures var h := Set(Set(g, q.row, q.col, vq), p.row, p.col, 0);
            IsSquare(h, n) && (AllTileValues(g) ==> AllTileValues(h))
  {
  }

  lemma DoubleTileValue(g: Grid, q: Pos)
    requires 0 <= q.row < |g| && 0 <= q.col < |g[q.row]| && g[q.row][q.col] > 0
    requires AllTileValues(g)
    ensures IsTileValue(2 * g[q.row][q.col])
  {
    assert IsTileValue(g[q.row][q.col]);
    DoublePowerOfTwo(g[q.row][q.col]);
  }

  // ---------------------------------------------------------------------------
  // One pass.

  /** The state after the first b iterations of the inner loop over line a. */
  ghost function ScanRow(s: PassState, d: Direction, n: nat, a: nat, b: nat): (t: PassState)
    requires IsSquare(s.grid, n) && a < n && b <= n
    ensures IsSquare(t.grid, n)
    ensures Progress(s, t)
    decreases b
  {
    if b == 0 then s
    else Step(ScanRow(s, d, n, a, b - 1), d, n, Pos(RowAt(d, n, a), ColAt(d, n, b - 1)))
  }

  /** The state after the first a iterations of the outer loop. */
  ghost function ScanRows(s: PassState, d: Direction, n: nat, a: nat): (t: PassState)
    requires IsSquare(s.grid, n) && a <= n
    ensures IsSquare(t.grid, n)
    ensures Progress(s, t)
    decreases a
  {
    if a == 0 then s
    else ScanRow(ScanRows(s, d, n, a - 1), d, n, a - 1, n)
  }

  lemma ScanRowNext(s: PassState, d: Direction, n: nat, a: nat, b: nat)
    requires IsSquare(s.grid, n) && a < n && b < n
    ensures ScanRow(s, d, n, a, b + 1) == Step(ScanRow(s, d, n, a, b), d, n, Pos(RowAt(d, n, a), ColAt(d, n, b)))
  {
  }

  lemma ScanRowsNext(s: PassState, d: Direction, n: nat, a: nat)
    requires IsSquare(s.grid, n) && a < n
    ensures ScanRows(s, d, n, a + 1) == ScanRow(ScanRows(s, d, n, a), d, n, a, n)
  {
  }

  /** One full pass over the board. */
  ghost function Pass(s: PassState, d: Direction, n: nat): PassState
    requires IsSquare(s.grid, n)
  {
    ScanRows(s, d, n, n)
  }

  /** One more step after a conserving run still conserves. */
  lemma ConservesThenStep(s: PassState, t: PassState, d: Direction, n: nat, p: Pos)
    requires IsSquare(s.grid, n) && IsSquare(t.grid, n) && InBounds(p, n)
    requires Conserves(s, t, d, n)
    ensures Conserves(s, Step(t, d, n, p), d, n)
  {
    StepConserves(t, d, n, p);
    ConservesTrans(s, t, Step(t, d, n, p), d, n);
  }

  lemma {:induction false} ScanRowConserves(s: PassState, d: Direction, n: nat, a: nat, b: nat)
    requires IsSquare(s.grid, n) && a < n && b <= n
    ensures Conserves(s, ScanRow(s, d, n, a, b), d, n)
  {
    if b > 0 {
      ScanRowConserves(s, d, n, a, b - 1);
      ConservesThenStep(s, ScanRow(s, d, n, a, b - 1), d, n, Pos(RowAt(d, n, a), ColAt(d, n, b - 1)));
    } else {
      ConservesRefl(s, d, n);
    }
  }

  /** The states between the lines of a pass: entry k is the state after k lines. */
  ghost function RowsTrace(s: PassState, d: Direction, n: nat, a: nat): (tr: seq<PassState>)
    requires IsSquare(s.grid, n) && a <= n
    ensures |tr| == a + 1 && tr[0] == s && tr[a] == ScanRows(s, d, n, a)
    ensures forall k :: 0 <= k <= a ==> IsSquare(tr[k].grid, n)
    ensures forall k :: 0 <= k < a ==> tr[k + 1] == ScanRow(tr[k], d, n, k, n)
    decreases a
  {
    if a == 0 then [s]
    else
      var tr := RowsTrace(s, d, n, a - 1);
      tr + [ScanRow(tr[a - 1], d, n, a - 1, n)]
  }

  /** Conservation along a trace whose neighbouring entries conserve. */
  lemma {:induction false} TraceConserves(tr: seq<PassState>, d: Direction, n: nat, m: nat)
    requires m < |tr| && forall k :: 0 <= k < |tr| ==> IsSquare(tr[k].grid, n)
    requires forall k :: 0 <= k < |tr| - 1 ==> Conserves(tr[k], tr[k + 1], d, n)
    ensures Conserves(tr[0], tr[m], d, n)
  {
    if m > 0 {
      TraceConserves(tr, d, n, m - 1);
      ConservesTrans(tr[0], tr[m - 1], tr[m], d, n);
    } else {
      ConservesRefl(tr[0], d, n);
    }
  }

  lemma ScanRowsConserves(s: PassState, d: Direction, n: nat, a: nat)
    requires IsSquare(s.grid, n) && a <= n
    ensures Conserves(s, ScanRows(s, d, n, a), d, n)
  {
    var tr := RowsTrace(s, d, n, a);
    forall k | 0 <= k < a
      ensures Conserves(tr[k], tr[k + 1], d, n)
    {
      ScanRowConserves(tr[k], d, n, k, n);
    }
    TraceConserves(tr, d, n, a);
  }

  lemma ConservesRefl(s: PassState, d: Direction, n: nat)
    requires IsSquare(s.grid, n)
    ensures Conserves(s, s, d, n)
  {
    assert s.locks[..|s.locks|] == s.locks;
  }

  /** A pass keeps everything `Conserves` promises. */
  lemma PassConserves(s: PassState, d: Direction, n: nat)
    requires IsSquare(s.grid, n)
    ensures Conserves(s, Pass(s, d, n), d, n)
  {
    ScanRowsConserves(s, d, n, n);
  }

  /** No position can slide or merge: a further pass would change nothing. */
  ghost predicate Quiescent(g: Grid, locks: seq<Pos>, d: Direction, n: nat)
  {
    && IsSquare(g, n)
    && forall i, j :: 0 <= i < n && 0 <= j < n ==>
         !CanSlide(g, d, n, Pos(i, j)) && !CanMerge(g, locks, d, n, Pos(i, j))
  }

  lemma {:induction false} ScanRowQuiet(s: PassState, d: Direction, n: nat, a: nat, b: nat)
    requires IsSquare(s.grid, n) && a < n && b <= n
    requires ScanRow(s, d, n, a, b).changes == s.changes
    ensures forall b' :: 0 <= b' < b ==> Step(s, d, n, Pos(RowAt(d, n, a), ColAt(d, n, b'))) == s
  {
    if b > 0 {
      ScanRowStill(s, d, n, a, b);
      ScanRowQuiet(s, d, n, a, b - 1);
    }
  }

  /** A prefix of the inner loop that counts no change has changed nothing,
      and neither has its last step. */
  lemma ScanRowStill(s: PassState, d: Direction, n: nat, a: nat, b: nat)
    requires IsSquare(s.grid, n) && a < n && 0 < b <= n
    requires ScanRow(s, d, n, a, b).changes == s.changes
    ensures ScanRow(s, d, n, a, b - 1) == s
    ensures Step(s, d, n, Pos(RowAt(d, n, a), ColAt(d, n, b - 1))) == s
  {
    var prev := ScanRow(s, d, n, a, b - 1);
    var p := Pos(RowAt(d, n, a), ColAt(d, n, b - 1));
    ScanRowNext(s, d, n, a, b - 1);
    assert Progress(s, prev) && Progress(prev, Step(prev, d, n, p));
  }

  /** A prefix of the outer loop that counts no change has changed nothing,
      and neither has the line before it. */
  lemma ScanRowsStill(s: PassState, d: Direction, n: nat, a: nat)
    requires IsSquare(s.grid, n) && 0 < a <= n
    requires ScanRows(s, d, n, a).changes == s.changes
    ensures ScanRows(s, d, n, a - 1) == s
    ensures ScanRow(s, d, n, a - 1, n).changes == s.changes
  {
    var prev := ScanRows(s, d, n, a - 1);
    assert Progress(s, prev) && Progress(prev, ScanRow(prev, d, n, a - 1, n));
  }

  lemma {:induction false} ScanRowsQuiet(s: PassState, d: Direction, n: nat, a: nat)
    requires IsSquare(s.grid, n) && a <= n
    requires ScanRows(s, d, n, a).changes == s.changes
    ensures forall a' :: 0 <= a' < a ==> ScanRow(s, d, n, a', n).changes == s.changes
  {
    if a > 0 {
      ScanRowsStill(s, d, n, a);
      ScanRowsQuiet(s, d, n, a - 1);
    }
  }

  /** A pass that makes no change leaves the board quiescent: it visited every
      position, and none could slide or merge. */
  lemma PassQuiet(s: PassState, d: Direction, n: nat)
    requires IsSquare(s.grid, n)
    requires Pass(s, d, n).changes == s.changes
    ensures Quiescent(s.grid, s.locks, d, n)
  {
    ScanRowsQuiet(s, d, n, n);
    forall i, j | 0 <= i < n && 0 <= j < n
      ensures !CanSlide(s.grid, d, n, Pos(i, j)) && !CanMerge(s.grid, s.locks, d, n, Pos(i, j))
    {
      var a := if d == Down then n - 1 - i else i;
      var b := if d == Right then n - 1 - j else j;
      ScanRowQuiet(s, d, n, a, n);
      assert Pos(RowAt(d, n, a), ColAt(d, n, b)) == Pos(i, j);
      StepCases(s, d, n, Pos(i, j));
    }
  }


  /** A line prefix that led back to s, followed by a step that leaves s alone,
      still leads back to s. */
  lemma ScanRowFixed(s: PassState, d: Direction, n: nat, a: nat, b: nat)
    requires IsSquare(s.grid, n) && a < n && 0 < b <= n
    requires ScanRow(s, d, n, a, b - 1) == s
    requires Step(s, d, n, Pos(RowAt(d, n, a), ColAt(d, n, b - 1))) == s
    ensures ScanRow(s, d, n, a, b) == s
  {
    ScanRowNext(s, d, n, a, b - 1);
  }

  /** On a quiescent board a step leaves the state as it is. */
  lemma QuietStep(s: PassState, d: Direction, n: nat, p: Pos)
    requires Quiescent(s.grid, s.locks, d, n) && InBounds(p, n)
    ensures Step(s, d, n, p) == s
  {
    StepCases(s, d, n, p);
  }

  /** A line whose every step leaves s alone leaves s alone. */
  lemma {:induction false} FixedScanRow(s: PassState, d: Direction, n: nat, a: nat, b: nat)
    requires IsSquare(s.grid, n) && a < n && b <= n
    requires forall b' :: 0 <= b' < b ==> Step(s, d, n, Pos(RowAt(d, n, a), ColAt(d, n, b'))) == s
    ensures ScanRow(s, d, n, a, b) == s
  {
    if b > 0 {
      FixedScanRow(s, d, n, a, b - 1);
      ScanRowFixed(s, d, n, a, b);
    }
  }

  /** Lines that each leave s alone leave s alone. */
  lemma {:induction false} FixedScanRows(s: PassState, d: Direction, n: nat, a: nat)
    requires IsSquare(s.grid, n) && a <= n
    requires forall a' :: 0 <= a' < a ==> ScanRow(s, d, n, a', n) == s
    ensures ScanRows(s, d, n, a) == s
  {
    if a > 0 {
      FixedScanRows(s, d, n, a - 1);
      ScanRowsNext(s, d, n, a - 1);
    }
  }

  /** A pass over a quiescent board changes nothing. */
  lemma QuietPass(s: PassState, d: Direction, n: nat)
    requires Quiescent(s.grid, s.locks, d, n)
    ensures Pass(s, d, n) == s
  {
    forall a' | 0 <= a' < n
      ensures ScanRow(s, d, n, a', n) == s
    {
      forall b' | 0 <= b' < n
        ensures Step(s, d, n, Pos(RowAt(d, n, a'), ColAt(d, n, b'))) == s
      {
        QuietStep(s, d, n, Pos(RowAt(d, n, a'), ColAt(d, n, b')));
      }
      FixedScanRow(s, d, n, a', n);
    }
    FixedScanRows(s, d, n, n);
  }

  // ---------------------------------------------------------------------------
  // The whole move (before the spawn).

  /** Passes until one makes no change. The result's `changes` counts every
      change of every pass; SettleProps states what the move keeps. */
  ghost function Settle(g: Grid, locks: seq<Pos>, d: Direction, n: nat): (r: PassState)
    requires IsSquare(g, n)
    ensures IsSquare(r.grid, n)
    decreases Measure(g, d, n)
  {
    var s := PassState(g, locks, 0);
    var p := Pass(s, d, n);
    PassConserves(s, d, n);
    if p.changes == 0 then
      s
    else
      var rest := Settle(p.grid, p.locks, d, n);
      PassState(rest.grid, rest.locks, p.changes + rest.changes)
  }

  /** A whole move keeps everything `Conserves` promises, and ends on a board
      where no position can slide or merge. */
  lemma {:induction false} SettleProps(g: Grid, locks: seq<Pos>, d: Direction, n: nat)
    requires IsSquare(g, n)
    ensures Conserves(PassState(g, locks, 0), Settle(g, locks, d, n), d, n)
    ensures Quiescent(Settle(g, locks, d, n).grid, Settle(g, locks, d, n).locks, d, n)
    decreases Measure(g, d, n)
  {
    var s := PassState(g, locks, 0);
    var p := Pass(s, d, n);
    PassConserves(s, d, n);
    if p.changes == 0 {
      PassQuiet(s, d, n);
    } else {
      var rest := Settle(p.grid, p.locks, d, n);
      SettleProps(p.grid, p.locks, d, n);
      var r := Settle(g, locks, d, n);
      assert r == PassState(rest.grid, rest.locks, p.changes + rest.changes);
      assert rest.changes == 0 ==> rest == PassState(p.grid, p.locks, 0);
    }
  }

  /** One unfolding of Settle: a pass, then either stop or settle the rest. */
  lemma SettleUnfold(g: Grid, locks: seq<Pos>, d: Direction, n: nat)
    requires IsSquare(g, n)
    ensures var p := Pass(PassState(g, locks, 0), d, n);
            var r := Settle(g, locks, d, n);
            if p.changes == 0 then r == PassState(g, locks, 0)
            else var rest := Settle(p.grid, p.locks, d, n);
                 r.grid == rest.grid && r.locks == rest.locks && r.changes == p.changes + rest.changes
  {
  }

  /** A move starting from a quiescent board changes nothing. */
  lemma SettleQuiescent(g: Grid, locks: seq<Pos>, d: Direction, n: nat)
    requires Quiescent(g, locks, d, n)
    ensures Settle(g, locks, d, n) == PassState(g, locks, 0)
  {
    QuietPass(PassState(g, locks, 0), d, n);
  }

  /** The move reports a change exactly when the resulting board differs from
      the one it started from. */
  lemma ChangedIffDifferent(g: Grid, d: Direction, n: nat)
    requires IsSquare(g, n)
    ensures Settle(g, [], d, n).changes > 0 <==> Settle(g, [], d, n).grid != g
  {
    SettleProps(g, [], d, n);
  }

  /** The whole move from a board with no locks: the sum is kept, the tile
      count falls by exactly the number of merges (each merge position listed
      once), the zero count rises by as much, and powers of two stay powers of
      two. */
  lemma MoveConserves(g: Grid, d: Direction, n: nat)
    requires IsSquare(g, n)
    ensures var r := Settle(g, [], d, n);
            && CellSum(r.grid) == CellSum(g)
            && TileCount(r.grid) + |r.locks| == TileCount(g)
            && ZeroCount(r.grid) == ZeroCount(g) + |r.locks|
            && NoDuplicates(r.locks)
            && (AllTileValues(g) ==> AllTileValues(r.grid))
  {
    var r := Settle(g, [], d, n);
    SettleProps(g, [], d, n);
    TilesPlusZeros(g, n);
    TilesPlusZeros(r.grid, n);
  }

  /** A whole turn that changed the board, spawn included: the sum grows by
      exactly the spawned value, the tile count falls by the number of merges
      and rises by one, and tile values stay powers of two. */
  lemma TurnTotals(g: Grid, d: Direction, n: nat, index: nat, roll: int)
    requires IsSquare(g, n) && index < |EmptyCells(Settle(g, [], d, n).grid)|
    ensures var r := Settle(g, [], d, n);
            var h := SpawnCell(r.grid, index, roll);
            && CellSum(h) == CellSum(g) + SpawnValue(roll)
            && TileCount(h) == TileCount(g) - |r.locks| + 1
            && (AllTileValues(g) ==> AllTileValues(h))
  {
    var r := Settle(g, [], d, n);
    MoveConserves(g, d, n);
    SpawnContract(r.grid, index, roll);
  }

  // ---------------------------------------------------------------------------
  // The methods: the board is changed in place.

  /** The result of a step in each of its three cases. */
  lemma StepCases(s: PassState, d: Direction, n: nat, p: Pos)
    requires IsSquare(s.grid, n) && InBounds(p, n)
    ensures var g, q := s.grid, Neighbour(p, d);
            && (CanSlide(g, d, n, p) ==>
                  Step(s, d, n, p) == PassState(Set(Set(g, q.row, q.col, g[p.row][p.col]), p.row, p.col, 0), s.locks, s.changes + 1))
            && (!CanSlide(g, d, n, p) && CanMerge(g, s.locks, d, n, p) ==>
                  Step(s, d, n, p) == PassState(Set(Set(g, q.row, q.col, 2 * g[q.row][q.col]), p.row, p.col, 0), s.locks + [q], s.changes + 1))
            && (!CanSlide(g, d, n, p) && !CanMerge(g, s.locks, d, n, p) ==> Step(s, d, n, p) == s)
  {
  }

  /** Writes vq into cell q, then vp into cell p. */
  method WriteTwo(board: array2<nat>, q: Pos, vq: nat, p: Pos, vp: nat, ghost g: Grid)
    requires board.Length0 == board.Length1 && IsSquare(g, board.Length0) && Matches(board, g)
    requires InBounds(p, board.Length0) && InBounds(q, board.Length0)
    modifies board
    ensures Matches(board, Set(Set(g, q.row, q.col, vq), p.row, p.col, vp))
  {
    board[q.row, q.col] := vq;
    board[p.row, p.col] := vp;
  }

  /** The body of update's inner loop at (i, j): slide the tile into an empty
      neighbour, or else merge it into an equal neighbour when neither position
      is in the lock list, pushing the neighbour onto it. */
  method SlideOrMerge(d: Direction, board: array2<nat>, i: int, j: int, changedTile: seq<Pos>, changes: nat,
                      ghost s: PassState)
    returns (locks: seq<Pos>, count: nat)
    requires board.Length0 == board.Length1 && IsSquare(s.grid, board.Length0) && Matches(board, s.grid)
    requires changedTile == s.locks && changes == s.changes
    requires 0 <= i < board.Length0 && 0 <= j < board.Length0
    modifies board
    ensures var t := Step(s, d, board.Length0, Pos(i, j));
            Matches(board, t.grid) && locks == t.locks && count == t.changes
  {
    var n := board.Length0;
    ghost var g := s.grid;
    var directionModX, directionModY := DeltaX(d), DeltaY(d);
    var p := Pos(i, j);
    var q := Pos(i + directionModY, j + directionModX);
    StepCases(s, d, n, p);
    locks, count := changedTile, changes;
    if board[i, j] > 0 && IsInsideBoard(i, j, d, n) && board[i + directionModY, j + directionModX] == 0 {
      assert CanSlide(g, d, n, p);
      WriteTwo(board, q, board[i, j], p, 0, g);
      count := count + 1;
    } else if board[i, j] > 0 && IsInsideBoard(i, j, d, n)
      && board[i + directionModY, j + directionModX] == board[i, j]
      && IsInside(Pos(i + directionModY, j + directionModX), locks) == false
      && IsInside(Pos(i, j), locks) == false
    {
      assert !CanSlide(g, d, n, p) && CanMerge(g, locks, d, n, p);
      locks := locks + [Pos(i + directionModY, j + directionModX)];
      WriteTwo(board, q, board[i + directionModY, j + directionModX] * 2, p, 0, g);
      count := count + 1;
    } else {
      assert !CanSlide(g, d, n, p) && !CanMerge(g, locks, d, n, p);
    }
  }

  /** One run of update's inner loop: the positions of line a (the row
      `RowAt(d, n, a)`), visited from the edge the tiles move toward. */
  method SweepLine(d: Direction, board: array2<nat>, i: int, ghost a: nat, changedTile: seq<Pos>, changes: nat,
                   ghost g: Grid)
    returns (locks: seq<Pos>, count: nat, ghost h: Grid)
    requires board.Length0 == board.Length1 && IsSquare(g, board.Length0) && Matches(board, g)
    requires a < board.Length0 && i == RowAt(d, board.Length0, a)
    modifies board
    ensures IsSquare(h, board.Length0) && Matches(board, h)
    ensures PassState(h, locks, count) == ScanRow(PassState(g, changedTile, changes), d, board.Length0, a, board.Length0)
  {
    var n := board.Length0;
    var jLoop := ColLoop(d, n);
    ghost var lineStart := PassState(g, changedTile, changes);
    ghost var st := lineStart;
    locks, count := changedTile, changes;
    var j := jLoop.0;
    ghost var b: nat := 0;
    RowIndex(d, n, a);
    while j != jLoop.1
      invariant b <= n && j == ColAt(d, n, b)
      invariant st == ScanRow(lineStart, d, n, a, b) && IsSquare(st.grid, n)
      invariant Matches(board, st.grid) && locks == st.locks && count == st.changes
      decreases n - b
    {
      ColIndex(d, n, b);
      ScanRowNext(lineStart, d, n, a, b);
      locks, count := SlideOrMerge(d, board, i, j, locks, count, st);
      st := Step(st, d, n, Pos(i, j));
      j := j + jLoop.2;
      b := b + 1;
    }
    ColIndex(d, n, b);
    h := st.grid;
  }

  /** One pass of update's outer loop: every line in turn. */
  method Sweep(d: Direction, board: array2<nat>, changedTile: seq<Pos>, ghost start: Grid)
    returns (changes: nat, locks: seq<Pos>)
    requires board.Length0 == board.Length1 && IsSquare(start, board.Length0) && Matches(board, start)
    modifies board
    ensures var p := Pass(PassState(start, changedTile, 0), d, board.Length0);
            Matches(board, p.grid) && locks == p.locks && changes == p.changes
  {
    var n := board.Length0;
    var iLoop := RowLoop(d, n);
    ghost var s0 := PassState(start, changedTile, 0);
    ghost var g := start;
    changes, locks := 0, changedTile;
    var i := iLoop.0;
    ghost var a: nat := 0;
    while i != iLoop.1
      invariant a <= n && i == RowAt(d, n, a)
      invariant IsSquare(g, n) && Matches(board, g)
      invariant PassState(g, locks, changes) == ScanRows(s0, d, n, a)
      decreases n - a
    {
      RowIndex(d, n, a);
      ScanRowsNext(s0, d, n, a);
      locks, changes, g := SweepLine(d, board, i, a, locks, changes, g);
      i := i + iLoop.2;
      a := a + 1;
    }
    RowIndex(d, n, a);
  }

  /** update: resolve the move by passes until one changes nothing, then spawn
      one tile if anything changed. `genRange(k)` is the random draw below k,
      `roll` the draw from 1 to 10. */
  method Update(d: Direction, board: array2<nat>, genRange: nat -> nat, roll: int) returns (hasChanged: bool)
    requires board.Length0 == board.Length1
    requires forall k: nat :: 0 < k ==> genRange(k) < k
    modifies board
    ensures var r := Settle(old(Cells(board)), [], d, board.Length0);
            && hasChanged == (r.changes > 0)
            && (hasChanged ==>
                  && |EmptyCells(r.grid)| > 0
                  && Matches(board, SpawnCell(r.grid, genRange(|EmptyCells(r.grid)|), roll)))
            && (!hasChanged ==> Matches(board, old(Cells(board))))
  {
    var n := board.Length0;
    ghost var g0 := Cells(board);
    ghost var final := Settle(g0, [], d, n);
    SettleProps(g0, [], d, n);
    var changes: nat := 1;
    hasChanged := false;
    var changedTile: seq<Pos> := [];
    ghost var g := g0;
    ghost var total: nat := 0;
    while changes != 0
      invariant IsSquare(g, n) && Matches(board, g)
      invariant changes != 0 ==>
                  var r := Settle(g, changedTile, d, n);
                  r.grid == final.grid && r.locks == final.locks && final.changes == total + r.changes
      invariant changes == 0 ==> g == final.grid && changedTile == final.locks && total == final.changes
      invariant hasChanged <==> total > 0
      decreases Measure(g, d, n), changes
    {
      ghost var before := PassState(g, changedTile, 0);
      SettleUnfold(g, changedTile, d, n);
      PassConserves(before, d, n);
      changes, changedTile := Sweep(d, board, changedTile, g);
      g := Pass(before, d, n).grid;
      total := total + changes;
      if changes > 0 {
        hasChanged := true;
      }
    }
    MatchesUnique(board, g, Cells(board));
    if hasChanged {
      var empties := EmptyCells(Cells(board));
      SpawnNewBlock(board, genRange(|empties|), roll);
    } else {
      MatchesUnique(board, g, g0);
    }
  }
}
