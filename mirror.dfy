/** Moves are mirror images of each other. Right and Left differ only in the
    order the columns are visited and in the sign of the column step, and Down
    and Up in the same way for rows; so the opposite move on the mirrored board
    gives the mirror of the move: the board mirrored, the same merges at the
    mirrored positions in the same order, and the same number of changes. */
module Mirror {
  import opened Board
  import opened Engine

  function Opposite(d: Direction): Direction
  {
    match d
    case Left => Right
    case Right => Left
    case Up => Down
    case Down => Up
  }

  /** The mirror image of a position across the middle of the board, along
      the axis the move runs on: columns reversed for Left and Right, rows
      reversed for Up and Down. */
  function Flip(d: Direction, n: nat, p: Pos): Pos
  {
    if d == Left || d == Right then Pos(p.row, n - 1 - p.col) else Pos(n - 1 - p.row, p.col)
  }

  /** The tile at row r and column c. The mirror facts below are stated on
      it, so that a proof uses them at the cells it names. */
  function Cell(g: Grid, r: int, c: int): nat
    requires 0 <= r < |g| && 0 <= c < |g[r]|
  {
    g[r][c]
  }

  /** h is g mirrored: each cell of h holds g's cell at its mirror image. */
  ghost predicate MirrorCells(g: Grid, h: Grid, d: Direction, n: nat)
  {
    && IsSquare(g, n) && IsSquare(h, n)
    && forall r, c {:trigger Cell(h, r, c)} :: 0 <= r < n && 0 <= c < n ==>
         Cell(h, r, c) == Cell(g, Flip(d, n, Pos(r, c)).row, Flip(d, n, Pos(r, c)).col)
  }

  /** t is s mirrored: the board mirrored, each lock mirrored in the same
      order, and the same change count. */
  ghost predicate Mirrored(s: PassState, t: PassState, d: Direction, n: nat)
  {
    && MirrorCells(s.grid, t.grid, d, n)
    && MirrorLocks(s.locks, t.locks, d, n)
    && t.changes == s.changes
  }

  /** m is l with each position mirrored, in the same order. */
  ghost predicate MirrorLocks(l: seq<Pos>, m: seq<Pos>, d: Direction, n: nat)
  {
    && |m| == |l|
    && forall k {:trigger m[k]} :: 0 <= k < |l| ==> m[k] == Flip(d, n, l[k])
  }

  /** The mirrored board, as a value. */
  function FlipGrid(d: Direction, n: nat, g: Grid): (h: Grid)
    requires IsSquare(g, n)
    ensures IsSquare(h, n) && MirrorCells(g, h, d, n)
  {
    seq(n, r requires 0 <= r < n =>
      seq(n, c requires 0 <= c < n => g[Flip(d, n, Pos(r, c)).row][Flip(d, n, Pos(r, c)).col]))
  }

  /** A position is locked in the mirrored list exactly when its mirror image
      is locked in the original. */
  lemma MirrorLocked(s: PassState, t: PassState, d: Direction, n: nat, x: Pos)
    requires IsSquare(s.grid, n) && IsSquare(t.grid, n) && Mirrored(s, t, d, n)
    ensures x in t.locks <==> Flip(d, n, x) in s.locks
  {
    assert Flip(d, n, Flip(d, n, x)) == x;
    if x in t.locks {
      var k :| 0 <= k < |t.locks| && t.locks[k] == x;
      assert s.locks[k] == Flip(d, n, x);
    }
    if Flip(d, n, x) in s.locks {
      var k :| 0 <= k < |s.locks| && s.locks[k] == Flip(d, n, x);
      assert t.locks[k] == x;
    }
  }

  /** Only the shape part of Board.SetCell. Its cell-by-cell clauses are not
      needed where this is used, and they would only slow that proof down. */
  lemma SetSquare(g: Grid, n: nat, p: Pos, v: nat)
    requires IsSquare(g, n) && InBounds(p, n)
    ensures IsSquare(Set(g, p.row, p.col, v), n)
  {
  }

  /** One cell after the two writes of a slide or merge, written at the
      original positions on g and at the mirrored ones on h. */
  lemma MirrorWriteCell(g: Grid, h: Grid, d: Direction, n: nat, q: Pos, vq: nat, p: Pos, vp: nat, x: Pos)
    requires IsSquare(g, n) && IsSquare(h, n) && InBounds(p, n) && InBounds(q, n) && InBounds(x, n)
    requires MirrorCells(g, h, d, n)
    ensures InBounds(Flip(d, n, x), n)
    ensures var fq, fp, f := Flip(d, n, q), Flip(d, n, p), Flip(d, n, x);
            Set(Set(h, fq.row, fq.col, vq), fp.row, fp.col, vp)[x.row][x.col]
            == Set(Set(g, q.row, q.col, vq), p.row, p.col, vp)[f.row][f.col]
  {
    var fq, fp, f := Flip(d, n, q), Flip(d, n, p), Flip(d, n, x);
    assert Cell(h, x.row, x.col) == Cell(g, f.row, f.col);
  }

  /** The two writes of a slide or merge, and the same writes at the mirrored
      positions, keep the boards mirrored. */
  lemma MirrorWriteTwo(g: Grid, h: Grid, d: Direction, n: nat, q: Pos, vq: nat, p: Pos, vp: nat)
    requires IsSquare(g, n) && IsSquare(h, n) && InBounds(p, n) && InBounds(q, n)
    requires MirrorCells(g, h, d, n)
    ensures var fq, fp := Flip(d, n, q), Flip(d, n, p);
            && IsSquare(Set(Set(g, q.row, q.col, vq), p.row, p.col, vp), n)
            && IsSquare(Set(Set(h, fq.row, fq.col, vq), fp.row, fp.col, vp), n)
            && MirrorCells(Set(Set(g, q.row, q.col, vq), p.row, p.col, vp), Set(Set(h, fq.row, fq.col, vq), fp.row, fp.col, vp), d, n)
  {
    var fq, fp := Flip(d, n, q), Flip(d, n, p);
    SetSquare(g, n, q, vq);
    SetSquare(h, n, fq, vq);
    SetSquare(Set(g, q.row, q.col, vq), n, p, vp);
    SetSquare(Set(h, fq.row, fq.col, vq), n, fp, vp);
    forall r, c | 0 <= r < n && 0 <= c < n
      ensures Cell(Set(Set(h, fq.row, fq.col, vq), fp.row, fp.col, vp), r, c)
              == Cell(Set(Set(g, q.row, q.col, vq), p.row, p.col, vp), Flip(d, n, Pos(r, c)).row, Flip(d, n, Pos(r, c)).col)
    {
      MirrorWriteCell(g, h, d, n, q, vq, p, vp, Pos(r, c));
    }
  }

  /** The opposite move at the mirror of p sees the mirror of what the move
      sees at p: the same cells, the same locks, the same guards. */
  lemma MirrorGuards(s: PassState, t: PassState, d: Direction, n: nat, p: Pos)
    requires IsSquare(s.grid, n) && IsSquare(t.grid, n) && InBounds(p, n)
    requires Mirrored(s, t, d, n)
    ensures var e, fp, q := Opposite(d), Flip(d, n, p), Neighbour(p, d);
            && InBounds(fp, n)
            && Neighbour(fp, e) == Flip(d, n, q)
            && t.grid[fp.row][fp.col] == s.grid[p.row][p.col]
            && (IsInsideBoard(p.row, p.col, d, n) ==> InBounds(q, n) && t.grid[Flip(d, n, q).row][Flip(d, n, q).col] == s.grid[q.row][q.col])
            && CanSlide(t.grid, e, n, fp) == CanSlide(s.grid, d, n, p)
            && CanMerge(t.grid, t.locks, e, n, fp) == CanMerge(s.grid, s.locks, d, n, p)
  {
    var g, q := s.grid, Neighbour(p, d);
    var e, fp, fq := Opposite(d), Flip(d, n, p), Flip(d, n, Neighbour(p, d));
    assert Neighbour(fp, e) == fq;
    assert IsInsideBoard(fp.row, fp.col, e, n) == IsInsideBoard(p.row, p.col, d, n);
    assert Flip(d, n, fp) == p;
    assert Cell(t.grid, fp.row, fp.col) == Cell(g, p.row, p.col);
    if IsInsideBoard(p.row, p.col, d, n) {
      assert Flip(d, n, fq) == q;
      assert Cell(t.grid, fq.row, fq.col) == Cell(g, q.row, q.col);
    }
    MirrorLocked(s, t, d, n, fp);
    MirrorLocked(s, t, d, n, fq);
  }

  /** A step at p on a board, and the opposite move's step at the mirror of p
      on the mirrored board, keep the two states mirrored. */
  lemma StepMirror(s: PassState, t: PassState, d: Direction, n: nat, p: Pos)
    requires IsSquare(s.grid, n) && IsSquare(t.grid, n) && InBounds(p, n)
    requires Mirrored(s, t, d, n)
    ensures Mirrored(Step(s, d, n, p), Step(t, Opposite(d), n, Flip(d, n, p)), d, n)
  {
    var g, q := s.grid, Neighbour(p, d);
    MirrorGuards(s, t, d, n, p);
    StepCases(s, d, n, p);
    StepCases(t, Opposite(d), n, Flip(d, n, p));
    if CanSlide(g, d, n, p) {
      MirrorWriteTwo(g, t.grid, d, n, q, g[p.row][p.col], p, 0);
    } else if CanMerge(g, s.locks, d, n, p) {
      MirrorWriteTwo(g, t.grid, d, n, q, 2 * g[q.row][q.col], p, 0);
    }
  }

  /** The opposite move visits the mirror images of the positions, in the same order. */
  lemma VisitFlip(d: Direction, n: nat, a: nat, b: nat)
    requires a < n && b < n
    ensures Pos(RowAt(Opposite(d), n, a), ColAt(Opposite(d), n, b)) == Flip(d, n, Pos(RowAt(d, n, a), ColAt(d, n, b)))
    ensures InBounds(Pos(RowAt(d, n, a), ColAt(d, n, b)), n)
  {
  }

  /** The b-th step of line a on both sides keeps them mirrored. */
  lemma StepMirrorAt(s: PassState, t: PassState, d: Direction, n: nat, a: nat, b: nat)
    requires IsSquare(s.grid, n) && IsSquare(t.grid, n) && a < n && b < n
    requires Mirrored(s, t, d, n)
    ensures Mirrored(Step(s, d, n, Pos(RowAt(d, n, a), ColAt(d, n, b))),
                     Step(t, Opposite(d), n, Pos(RowAt(Opposite(d), n, a), ColAt(Opposite(d), n, b))), d, n)
  {
    VisitFlip(d, n, a, b);
    StepMirror(s, t, d, n, Pos(RowAt(d, n, a), ColAt(d, n, b)));
  }

  /** The state after the steps of line a from the k-th to the end, taken
      from s: the inner loop, run from its k-th iteration on. */
  ghost function RestOfLine(s: PassState, d: Direction, n: nat, a: nat, k: nat): (t: PassState)
    requires IsSquare(s.grid, n) && a < n && k <= n
    ensures IsSquare(t.grid, n)
    decreases n - k
  {
    if k == n then s
    else RestOfLine(Step(s, d, n, Pos(RowAt(d, n, a), ColAt(d, n, k))), d, n, a, k + 1)
  }

  /** Running the first k steps of a line and then the rest is running the whole line. */
  lemma {:induction false} RestOfLineScanRow(s: PassState, d: Direction, n: nat, a: nat, k: nat)
    requires IsSquare(s.grid, n) && a < n && k <= n
    ensures RestOfLine(ScanRow(s, d, n, a, k), d, n, a, k) == ScanRow(s, d, n, a, n)
    decreases n - k
  {
    if k < n {
      ScanRowNext(s, d, n, a, k);
      RestOfLineScanRow(s, d, n, a, k + 1);
    }
  }

  /** The rest of line a from the k-th step, on both sides, keeps them mirrored. */
  lemma {:induction false} RestOfLineMirror(s: PassState, t: PassState, d: Direction, n: nat, a: nat, k: nat)
    requires IsSquare(s.grid, n) && IsSquare(t.grid, n) && a < n && k <= n
    requires Mirrored(s, t, d, n)
    ensures Mirrored(RestOfLine(s, d, n, a, k), RestOfLine(t, Opposite(d), n, a, k), d, n)
    decreases n - k
  {
    if k < n {
      StepMirrorAt(s, t, d, n, a, k);
      RestOfLineMirror(Step(s, d, n, Pos(RowAt(d, n, a), ColAt(d, n, k))),
                       Step(t, Opposite(d), n, Pos(RowAt(Opposite(d), n, a), ColAt(Opposite(d), n, k))), d, n, a, k + 1);
    }
  }

  /** A whole line on both sides keeps them mirrored. */
  lemma ScanRowMirror(s: PassState, t: PassState, d: Direction, n: nat, a: nat)
    requires IsSquare(s.grid, n) && IsSquare(t.grid, n) && a < n
    requires Mirrored(s, t, d, n)
    ensures Mirrored(ScanRow(s, d, n, a, n), ScanRow(t, Opposite(d), n, a, n), d, n)
  {
    RestOfLineMirror(s, t, d, n, a, 0);
    RestOfLineScanRow(s, d, n, a, 0);
    RestOfLineScanRow(t, Opposite(d), n, a, 0);
  }

  /** One more line on both sides keeps them mirrored. */
  lemma ScanRowsMirrorNext(s: PassState, t: PassState, d: Direction, n: nat, a: nat)
    requires IsSquare(s.grid, n) && IsSquare(t.grid, n) && 0 < a <= n
    requires Mirrored(ScanRows(s, d, n, a - 1), ScanRows(t, Opposite(d), n, a - 1), d, n)
    ensures Mirrored(ScanRows(s, d, n, a), ScanRows(t, Opposite(d), n, a), d, n)
  {
    ScanRowMirror(ScanRows(s, d, n, a - 1), ScanRows(t, Opposite(d), n, a - 1), d, n, a - 1);
  }

  lemma {:induction false} ScanRowsMirror(s: PassState, t: PassState, d: Direction, n: nat, a: nat)
    requires IsSquare(s.grid, n) && IsSquare(t.grid, n) && a <= n
    requires Mirrored(s, t, d, n)
    ensures Mirrored(ScanRows(s, d, n, a), ScanRows(t, Opposite(d), n, a), d, n)
    decreases a
  {
    if a > 0 {
      ScanRowsMirror(s, t, d, n, a - 1);
      ScanRowsMirrorNext(s, t, d, n, a);
    }
  }

  /** A pass, and the opposite move's pass over the mirrored state, end mirrored. */
  lemma PassMirror(s: PassState, t: PassState, d: Direction, n: nat)
    requires IsSquare(s.grid, n) && IsSquare(t.grid, n) && Mirrored(s, t, d, n)
    ensures Mirrored(Pass(s, d, n), Pass(t, Opposite(d), n), d, n)
  {
    ScanRowsMirror(s, t, d, n, n);
  }

  /** The whole move, and the opposite move on the mirrored board, end mirrored:
      they take the same passes and make the same changes. */
  lemma {:induction false} SettleMirror(g: Grid, gl: seq<Pos>, h: Grid, hl: seq<Pos>, d: Direction, n: nat)
    requires IsSquare(g, n) && IsSquare(h, n)
    requires Mirrored(PassState(g, gl, 0), PassState(h, hl, 0), d, n)
    ensures Mirrored(Settle(g, gl, d, n), Settle(h, hl, Opposite(d), n), d, n)
    decreases Measure(g, d, n)
  {
    var s, t := PassState(g, gl, 0), PassState(h, hl, 0);
    var p, u := Pass(s, d, n), Pass(t, Opposite(d), n);
    PassMirror(s, t, d, n);
    PassConserves(s, d, n);
    SettleUnfold(g, gl, d, n);
    SettleUnfold(h, hl, Opposite(d), n);
    if p.changes > 0 {
      SettleMirror(p.grid, p.locks, u.grid, u.locks, d, n);
    }
  }

  /** The opposite move on the mirrored board is the mirror of the move: Right
      on a board gives, mirrored, what Left gives on the board with its columns
      reversed, and Down against Up with the rows reversed; the merges are the
      same positions mirrored, in the same order, and the change count is the same. */
  lemma MoveMirror(g: Grid, d: Direction, n: nat)
    requires IsSquare(g, n)
    ensures Mirrored(Settle(g, [], d, n), Settle(FlipGrid(d, n, g), [], Opposite(d), n), d, n)
  {
    SettleMirror(g, [], FlipGrid(d, n, g), [], d, n);
  }

  /** Two boards that mirror the same board are equal. */
  lemma MirrorUnique(g: Grid, h: Grid, k: Grid, d: Direction, n: nat)
    requires MirrorCells(g, h, d, n) && MirrorCells(g, k, d, n)
    ensures h == k
  {
    forall r, c | 0 <= r < n && 0 <= c < n
      ensures h[r][c] == k[r][c]
    {
      assert Cell(h, r, c) == Cell(k, r, c);
    }
    forall r | 0 <= r < n
      ensures h[r] == k[r]
    {
    }
  }

  /** The symmetry as boards: the opposite move on the mirrored board gives
      exactly the mirrored result board, with the same change count. */
  lemma MoveMirrorGrid(g: Grid, d: Direction, n: nat)
    requires IsSquare(g, n)
    ensures Settle(FlipGrid(d, n, g), [], Opposite(d), n).grid == FlipGrid(d, n, Settle(g, [], d, n).grid)
    ensures Settle(FlipGrid(d, n, g), [], Opposite(d), n).changes == Settle(g, [], d, n).changes
  {
    MoveMirror(g, d, n);
    MirrorUnique(Settle(g, [], d, n).grid, Settle(FlipGrid(d, n, g), [], Opposite(d), n).grid, FlipGrid(d, n, Settle(g, [], d, n).grid), d, n);
  }
}
