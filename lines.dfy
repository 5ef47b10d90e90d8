/** Moves keep lines apart. A Left or Right move works along rows and an Up or
    Down move along columns, and every slide or merge reads and writes two cells
    of one such line (and may lock the second). So what a whole move does to one
    line depends only on that line's own cells. */
module Lines {
  import opened Board
  import opened Engine

  /** g and h hold the same cells on the line of the move through o. */
  ghost predicate SameCells(g: Grid, h: Grid, d: Direction, n: nat, o: Pos)
  {
    && IsSquare(g, n) && IsSquare(h, n)
    && forall r, c :: 0 <= r < n && 0 <= c < n && SameLine(d, o, r, c) ==> g[r][c] == h[r][c]
  }

  /** s and t agree on the line of the move through o: the same cells, and the
      same positions of that line locked. */
  ghost predicate Agree(s: PassState, t: PassState, d: Direction, n: nat, o: Pos)
  {
    && SameCells(s.grid, t.grid, d, n, o)
    && (forall x: Pos :: SameLine(d, o, x.row, x.col) ==> (x in s.locks <==> x in t.locks))
  }

  /** Writing the same two values into two cells of the line keeps it the same. */
  lemma WriteTwoOnLine(g: Grid, h: Grid, d: Direction, n: nat, o: Pos, q: Pos, vq: nat, p: Pos, vp: nat)
    requires IsSquare(g, n) && IsSquare(h, n) && InBounds(p, n) && InBounds(q, n)
    requires SameCells(g, h, d, n, o)
    ensures IsSquare(Set(Set(g, q.row, q.col, vq), p.row, p.col, vp), n)
    ensures IsSquare(Set(Set(h, q.row, q.col, vq), p.row, p.col, vp), n)
    ensures SameCells(Set(Set(g, q.row, q.col, vq), p.row, p.col, vp), Set(Set(h, q.row, q.col, vq), p.row, p.col, vp), d, n, o)
  {
    SetCell(g, q.row, q.col, vq);
    SetCell(h, q.row, q.col, vq);
    SetCell(Set(g, q.row, q.col, vq), p.row, p.col, vp);
    SetCell(Set(h, q.row, q.col, vq), p.row, p.col, vp);
  }

  /** A step at a position off the line leaves the line and its locks alone. */
  lemma StepOffLine(s: PassState, d: Direction, n: nat, o: Pos, p: Pos)
    requires IsSquare(s.grid, n) && InBounds(p, n) && !SameLine(d, o, p.row, p.col)
    ensures Agree(s, Step(s, d, n, p), d, n, o)
  {
    StepLocal(s, d, n, p);
    StepCases(s, d, n, p);
  }

  /** A step at a position on the line does the same to the line in both states. */
  lemma StepOnLine(s: PassState, t: PassState, d: Direction, n: nat, o: Pos, p: Pos)
    requires IsSquare(s.grid, n) && IsSquare(t.grid, n) && InBounds(p, n)
    requires SameLine(d, o, p.row, p.col) && Agree(s, t, d, n, o)
    ensures Agree(Step(s, d, n, p), Step(t, d, n, p), d, n, o)
  {
    var q := Neighbour(p, d);
    StepCases(s, d, n, p);
    StepCases(t, d, n, p);
    if IsInsideBoard(p.row, p.col, d, n) {
      assert SameLine(d, o, q.row, q.col);
      assert s.grid[q.row][q.col] == t.grid[q.row][q.col];
    }
    assert s.grid[p.row][p.col] == t.grid[p.row][p.col];
    assert CanSlide(s.grid, d, n, p) == CanSlide(t.grid, d, n, p);
    assert CanMerge(s.grid, s.locks, d, n, p) == CanMerge(t.grid, t.locks, d, n, p);
    if CanSlide(s.grid, d, n, p) {
      WriteTwoOnLine(s.grid, t.grid, d, n, o, q, s.grid[p.row][p.col], p, 0);
    } else if CanMerge(s.grid, s.locks, d, n, p) {
      WriteTwoOnLine(s.grid, t.grid, d, n, o, q, 2 * s.grid[q.row][q.col], p, 0);
    }
  }

  lemma AgreeTrans(s: PassState, t: PassState, u: PassState, d: Direction, n: nat, o: Pos)
    requires IsSquare(s.grid, n) && IsSquare(t.grid, n) && IsSquare(u.grid, n)
    requires Agree(s, t, d, n, o) && Agree(t, u, d, n, o)
    ensures Agree(s, u, d, n, o)
  {
  }

  /** Any step keeps two states that agree on the line agreeing. */
  lemma StepAgree(s: PassState, t: PassState, d: Direction, n: nat, o: Pos, p: Pos)
    requires IsSquare(s.grid, n) && IsSquare(t.grid, n) && InBounds(p, n)
    requires Agree(s, t, d, n, o)
    ensures Agree(Step(s, d, n, p), Step(t, d, n, p), d, n, o)
  {
    if SameLine(d, o, p.row, p.col) {
      StepOnLine(s, t, d, n, o, p);
    } else {
      StepOffLine(s, d, n, o, p);
      StepOffLine(t, d, n, o, p);
      AgreeTrans(Step(s, d, n, p), s, t, d, n, o);
      AgreeTrans(Step(s, d, n, p), t, Step(t, d, n, p), d, n, o);
    }
  }

  lemma ScanRowAgreeNext(s: PassState, t: PassState, d: Direction, n: nat, o: Pos, a: nat, b: nat)
    requires IsSquare(s.grid, n) && IsSquare(t.grid, n) && a < n && 0 < b <= n
    requires Agree(ScanRow(s, d, n, a, b - 1), ScanRow(t, d, n, a, b - 1), d, n, o)
    ensures Agree(ScanRow(s, d, n, a, b), ScanRow(t, d, n, a, b), d, n, o)
  {
    ColIndex(d, n, b - 1);
    RowIndex(d, n, a);
    StepAgree(ScanRow(s, d, n, a, b - 1), ScanRow(t, d, n, a, b - 1), d, n, o, Pos(RowAt(d, n, a), ColAt(d, n, b - 1)));
  }

  lemma {:induction false} ScanRowAgree(s: PassState, t: PassState, d: Direction, n: nat, o: Pos, a: nat, b: nat)
    requires IsSquare(s.grid, n) && IsSquare(t.grid, n) && a < n && b <= n
    requires Agree(s, t, d, n, o)
    ensures Agree(ScanRow(s, d, n, a, b), ScanRow(t, d, n, a, b), d, n, o)
    decreases b
  {
    if b > 0 {
      ScanRowAgree(s, t, d, n, o, a, b - 1);
      ScanRowAgreeNext(s, t, d, n, o, a, b);
    }
  }

  lemma ScanRowsAgreeNext(s: PassState, t: PassState, d: Direction, n: nat, o: Pos, a: nat)
    requires IsSquare(s.grid, n) && IsSquare(t.grid, n) && 0 < a <= n
    requires Agree(ScanRows(s, d, n, a - 1), ScanRows(t, d, n, a - 1), d, n, o)
    ensures Agree(ScanRows(s, d, n, a), ScanRows(t, d, n, a), d, n, o)
  {
    ScanRowAgree(ScanRows(s, d, n, a - 1), ScanRows(t, d, n, a - 1), d, n, o, a - 1, n);
  }

  lemma {:induction false} ScanRowsAgree(s: PassState, t: PassState, d: Direction, n: nat, o: Pos, a: nat)
    requires IsSquare(s.grid, n) && IsSquare(t.grid, n) && a <= n
    requires Agree(s, t, d, n, o)
    ensures Agree(ScanRows(s, d, n, a), ScanRows(t, d, n, a), d, n, o)
    decreases a
  {
    if a > 0 {
      ScanRowsAgree(s, t, d, n, o, a - 1);
      ScanRowsAgreeNext(s, t, d, n, o, a);
    }
  }

  /** Two states that agree on a line still agree on it after a pass each. */
  lemma PassAgree(s: PassState, t: PassState, d: Direction, n: nat, o: Pos)
    requires IsSquare(s.grid, n) && IsSquare(t.grid, n) && Agree(s, t, d, n, o)
    ensures Agree(Pass(s, d, n), Pass(t, d, n), d, n, o)
  {
    ScanRowsAgree(s, t, d, n, o, n);
  }

  /** Two boards that agree on a line still agree on it after the whole move,
      however many passes each of them takes. */
  lemma {:induction false} SettleAgree(g: Grid, gl: seq<Pos>, h: Grid, hl: seq<Pos>, d: Direction, n: nat, o: Pos)
    requires IsSquare(g, n) && IsSquare(h, n)
    requires Agree(PassState(g, gl, 0), PassState(h, hl, 0), d, n, o)
    ensures Agree(Settle(g, gl, d, n), Settle(h, hl, d, n), d, n, o)
    decreases Measure(g, d, n) + Measure(h, d, n)
  {
    var s, t := PassState(g, gl, 0), PassState(h, hl, 0);
    var p, u := Pass(s, d, n), Pass(t, d, n);
    PassAgree(s, t, d, n, o);
    PassConserves(s, d, n);
    PassConserves(t, d, n);
    SettleUnfold(g, gl, d, n);
    SettleUnfold(h, hl, d, n);
    if p.changes == 0 && u.changes > 0 {
      SettleAgree(g, gl, u.grid, u.locks, d, n, o);
    } else if p.changes > 0 && u.changes == 0 {
      SettleAgree(p.grid, p.locks, h, hl, d, n, o);
    } else if p.changes > 0 && u.changes > 0 {
      SettleAgree(p.grid, p.locks, u.grid, u.locks, d, n, o);
    }
  }

  /** A Left or Right move turns equal rows into equal rows: row r of the
      result depends on row r of the board alone. */
  lemma MoveRowIndependent(g: Grid, h: Grid, d: Direction, n: nat, r: nat)
    requires IsSquare(g, n) && IsSquare(h, n) && (d == Left || d == Right)
    requires r < n && g[r] == h[r]
    ensures Settle(g, [], d, n).grid[r] == Settle(h, [], d, n).grid[r]
  {
    var o := Pos(r, 0);
    SettleAgree(g, [], h, [], d, n, o);
    assert forall c :: 0 <= c < n ==> SameLine(d, o, r, c);
  }

  /** An Up or Down move turns equal columns into equal columns: column c of
      the result depends on column c of the board alone. */
  lemma MoveColumnIndependent(g: Grid, h: Grid, d: Direction, n: nat, c: nat)
    requires IsSquare(g, n) && IsSquare(h, n) && (d == Up || d == Down)
    requires c < n && forall r :: 0 <= r < n ==> g[r][c] == h[r][c]
    ensures forall r :: 0 <= r < n ==> Settle(g, [], d, n).grid[r][c] == Settle(h, [], d, n).grid[r][c]
  {
    var o := Pos(0, c);
    SettleAgree(g, [], h, [], d, n, o);
    assert forall r :: 0 <= r < n ==> SameLine(d, o, r, c);
  }
}
