/** Concrete moves on a 4-by-4 board: a single row moved left, the other rows
    empty. They show the merge lock at work: a cell that received a merge in
    this move neither merges again nor is merged into. */
module Scenarios {
  import opened Board
  import opened Engine

  const EmptyRow: seq<nat> := [0, 0, 0, 0]

  /** A 4-by-4 board whose top row is `top`, every other row empty. */
  function TopRow(top: seq<nat>): (g: Grid)
    requires |top| == 4
    ensures IsSquare(g, 4)
  {
    [top, EmptyRow, EmptyRow, EmptyRow]
  }

  /** Sweeping a row that holds no tile changes nothing. */
  lemma {:induction false} EmptyLineQuiet(s: PassState, d: Direction, n: nat, a: nat, b: nat)
    requires IsSquare(s.grid, n) && a < n && b <= n
    requires forall c :: 0 <= c < n ==> s.grid[RowAt(d, n, a)][c] == 0
    requires d == Left || d == Right
    ensures ScanRow(s, d, n, a, b) == s
  {
    if b > 0 {
      EmptyLineQuiet(s, d, n, a, b - 1);
    }
  }

  /** A leftward sweep of the top row touches no other row. */
  lemma {:induction false} TopSweepLocal(s: PassState, n: nat, b: nat)
    requires IsSquare(s.grid, n) && 0 < n && b <= n
    ensures forall r, c :: 1 <= r < n && 0 <= c < n ==> ScanRow(s, Left, n, 0, b).grid[r][c] == s.grid[r][c]
  {
    if b > 0 {
      TopSweepLocal(s, n, b - 1);
      StepLocal(ScanRow(s, Left, n, 0, b - 1), Left, n, Pos(0, b - 1));
    }
  }

  /** Rows that hold no tile after the top row's sweep add nothing to the pass. */
  lemma {:induction false} LaterRowsQuiet(s: PassState, n: nat, a: nat)
    requires IsSquare(s.grid, n) && 1 <= a <= n
    requires forall r, c :: 1 <= r < n && 0 <= c < n ==> ScanRow(s, Left, n, 0, n).grid[r][c] == 0
    ensures ScanRows(s, Left, n, a) == ScanRow(s, Left, n, 0, n)
  {
    if a > 1 {
      LaterRowsQuiet(s, n, a - 1);
      EmptyLineQuiet(ScanRow(s, Left, n, 0, n), Left, n, a - 1, n);
    }
  }

  /** A leftward pass over a board whose only tiles are in the top row is the
      sweep of that row, and leaves the other rows empty. */
  lemma TopRowPass(s: PassState, n: nat)
    requires IsSquare(s.grid, n) && 0 < n
    requires forall r, c :: 1 <= r < n && 0 <= c < n ==> s.grid[r][c] == 0
    ensures Pass(s, Left, n) == ScanRow(s, Left, n, 0, n)
    ensures forall r, c :: 1 <= r < n && 0 <= c < n ==> Pass(s, Left, n).grid[r][c] == 0
  {
    TopSweepLocal(s, n, n);
    LaterRowsQuiet(s, n, n);
  }

  /** Writing a cell of the top row. */
  lemma SetTop(top: seq<nat>, c: nat, v: nat)
    requires |top| == 4 && c < 4
    ensures Set(TopRow(top), 0, c, v) == TopRow(top[c := v])
  {
    var g := Set(TopRow(top), 0, c, v);
    assert g[0] == top[c := v];
    assert g[1..] == [EmptyRow, EmptyRow, EmptyRow];
    assert g == [g[0]] + g[1..];
  }

  /** `next` is `top` with position c - 1 set to v and position c emptied. */
  predicate ShiftedInto(top: seq<nat>, next: seq<nat>, c: nat, v: nat)
    requires |top| == 4 && 1 <= c < 4
  {
    && |next| == 4 && next[c - 1] == v && next[c] == 0
    && forall i :: 0 <= i < 4 && i != c - 1 && i != c ==> next[i] == top[i]
  }

  /** The top-row tile at c slides into the empty cell on its left. */
  lemma TopSlide(top: seq<nat>, locks: seq<Pos>, k: nat, c: nat, next: seq<nat>)
    requires |top| == 4 && 1 <= c < 4 && top[c] > 0 && top[c - 1] == 0
    requires ShiftedInto(top, next, c, top[c])
    ensures Step(PassState(TopRow(top), locks, k), Left, 4, Pos(0, c)) == PassState(TopRow(next), locks, k + 1)
  {
    SetTop(top, c - 1, top[c]);
    SetTop(top[c - 1 := top[c]], c, 0);
    assert top[c - 1 := top[c]][c := 0] == next;
  }

  /** The top-row tile at c merges into the equal, unlocked tile on its left,
      which doubles. */
  lemma TopMerge(top: seq<nat>, locks: seq<Pos>, k: nat, c: nat, next: seq<nat>)
    requires |top| == 4 && 1 <= c < 4 && top[c] > 0 && top[c - 1] == top[c]
    requires Pos(0, c - 1) !in locks && Pos(0, c) !in locks
    requires ShiftedInto(top, next, c, 2 * top[c])
    ensures Step(PassState(TopRow(top), locks, k), Left, 4, Pos(0, c))
         == PassState(TopRow(next), locks + [Pos(0, c - 1)], k + 1)
  {
    SetTop(top, c - 1, 2 * top[c]);
    SetTop(top[c - 1 := 2 * top[c]], c, 0);
    assert top[c - 1 := 2 * top[c]][c := 0] == next;
  }

  /** An empty top-row position: the step changes nothing. */
  lemma TopStayEmpty(top: seq<nat>, locks: seq<Pos>, k: nat, c: nat)
    requires |top| == 4 && c < 4 && top[c] == 0
    ensures Step(PassState(TopRow(top), locks, k), Left, 4, Pos(0, c)) == PassState(TopRow(top), locks, k)
  {
  }

  /** The leftmost position has no neighbour to move into. */
  lemma TopStayEdge(top: seq<nat>, locks: seq<Pos>, k: nat)
    requires |top| == 4
    ensures Step(PassState(TopRow(top), locks, k), Left, 4, Pos(0, 0)) == PassState(TopRow(top), locks, k)
  {
  }

  /** A tile next to an unequal tile stays. */
  lemma TopStayBlocked(top: seq<nat>, locks: seq<Pos>, k: nat, c: nat)
    requires |top| == 4 && 0 < c < 4 && top[c - 1] != 0 && top[c - 1] != top[c]
    ensures Step(PassState(TopRow(top), locks, k), Left, 4, Pos(0, c)) == PassState(TopRow(top), locks, k)
  {
  }

  /** A tile next to an equal tile stays when either of the two is locked. */
  lemma TopStayLocked(top: seq<nat>, locks: seq<Pos>, k: nat, c: nat)
    requires |top| == 4 && 0 < c < 4 && top[c - 1] != 0
    requires Pos(0, c - 1) in locks || Pos(0, c) in locks
    ensures Step(PassState(TopRow(top), locks, k), Left, 4, Pos(0, c)) == PassState(TopRow(top), locks, k)
  {
  }

  // One step of the sweep of the top row, from the state the sweep has
  // reached after b positions.

  lemma SweepEdge(s: PassState, top: seq<nat>, locks: seq<Pos>, k: nat)
    requires IsSquare(s.grid, 4) && |top| == 4
    requires ScanRow(s, Left, 4, 0, 0) == PassState(TopRow(top), locks, k)
    ensures ScanRow(s, Left, 4, 0, 1) == PassState(TopRow(top), locks, k)
  {
    TopStayEdge(top, locks, k);
  }

  lemma SweepEmpty(s: PassState, b: nat, top: seq<nat>, locks: seq<Pos>, k: nat)
    requires IsSquare(s.grid, 4) && |top| == 4 && b < 4 && top[b] == 0
    requires ScanRow(s, Left, 4, 0, b) == PassState(TopRow(top), locks, k)
    ensures ScanRow(s, Left, 4, 0, b + 1) == PassState(TopRow(top), locks, k)
  {
    TopStayEmpty(top, locks, k, b);
  }

  lemma SweepBlocked(s: PassState, b: nat, top: seq<nat>, locks: seq<Pos>, k: nat)
    requires IsSquare(s.grid, 4) && |top| == 4 && 0 < b < 4 && top[b - 1] != 0 && top[b - 1] != top[b]
    requires ScanRow(s, Left, 4, 0, b) == PassState(TopRow(top), locks, k)
    ensures ScanRow(s, Left, 4, 0, b + 1) == PassState(TopRow(top), locks, k)
  {
    TopStayBlocked(top, locks, k, b);
  }

  lemma SweepLocked(s: PassState, b: nat, top: seq<nat>, locks: seq<Pos>, k: nat)
    requires IsSquare(s.grid, 4) && |top| == 4 && 0 < b < 4 && top[b - 1] != 0
    requires Pos(0, b - 1) in locks || Pos(0, b) in locks
    requires ScanRow(s, Left, 4, 0, b) == PassState(TopRow(top), locks, k)
    ensures ScanRow(s, Left, 4, 0, b + 1) == PassState(TopRow(top), locks, k)
  {
    TopStayLocked(top, locks, k, b);
  }

  lemma SweepSlide(s: PassState, b: nat, top: seq<nat>, locks: seq<Pos>, k: nat, next: seq<nat>)
    requires IsSquare(s.grid, 4) && |top| == 4 && 1 <= b < 4 && top[b] > 0 && top[b - 1] == 0
    requires ShiftedInto(top, next, b, top[b])
    requires ScanRow(s, Left, 4, 0, b) == PassState(TopRow(top), locks, k)
    ensures ScanRow(s, Left, 4, 0, b + 1) == PassState(TopRow(next), locks, k + 1)
  {
    TopSlide(top, locks, k, b, next);
  }

  lemma SweepMerge(s: PassState, b: nat, top: seq<nat>, locks: seq<Pos>, k: nat, next: seq<nat>)
    requires IsSquare(s.grid, 4) && |top| == 4 && 1 <= b < 4 && top[b] > 0 && top[b - 1] == top[b]
    requires Pos(0, b - 1) !in locks && Pos(0, b) !in locks
    requires ShiftedInto(top, next, b, 2 * top[b])
    requires ScanRow(s, Left, 4, 0, b) == PassState(TopRow(top), locks, k)
    ensures ScanRow(s, Left, 4, 0, b + 1) == PassState(TopRow(next), locks + [Pos(0, b - 1)], k + 1)
  {
    TopMerge(top, locks, k, b, next);
  }

  /** A leftward pass over a board whose tiles are all in the top row. */
  lemma TopPass(top: seq<nat>, locks: seq<Pos>)
    requires |top| == 4
    ensures Pass(PassState(TopRow(top), locks, 0), Left, 4) == ScanRow(PassState(TopRow(top), locks, 0), Left, 4, 0, 4)
  {
    TopRowPass(PassState(TopRow(top), locks, 0), 4);
  }

  /** A move whose first pass changes nothing stops there. */
  lemma SettleStop(g: Grid, locks: seq<Pos>, d: Direction, n: nat)
    requires IsSquare(g, n)
    requires Pass(PassState(g, locks, 0), d, n) == PassState(g, locks, 0)
    ensures Settle(g, locks, d, n) == PassState(g, locks, 0)
  {
    SettleUnfold(g, locks, d, n);
  }

  /** A move whose first pass makes k > 0 changes continues with the rest of
      the move from the board that pass leaves. */
  lemma SettleThen(g: Grid, locks: seq<Pos>, d: Direction, n: nat, next: Grid, nextLocks: seq<Pos>, k: nat, r: PassState)
    requires IsSquare(g, n) && IsSquare(next, n) && k > 0
    requires Pass(PassState(g, locks, 0), d, n) == PassState(next, nextLocks, k)
    requires Settle(next, nextLocks, d, n) == r
    ensures Settle(g, locks, d, n) == PassState(r.grid, r.locks, k + r.changes)
  {
    SettleUnfold(g, locks, d, n);
  }

  // ---------------------------------------------------------------------------
  // Three rows moved left, for any tile value x (y is 2 * x).

  /** First pass over [x, x, x, 0]: the first pair merges, the third x slides
      next to the new tile. */
  lemma PassXXX0(x: nat, y: nat)
    requires x > 0 && y == 2 * x
    ensures Pass(PassState(TopRow([x, x, x, 0]), [], 0), Left, 4) == PassState(TopRow([y, x, 0, 0]), [Pos(0, 0)], 2)
  {
    var s := PassState(TopRow([x, x, x, 0]), [], 0);
    SweepEdge(s, [x, x, x, 0], [], 0);
    SweepMerge(s, 1, [x, x, x, 0], [], 0, [y, 0, x, 0]);
    SweepSlide(s, 2, [y, 0, x, 0], [Pos(0, 0)], 1, [y, x, 0, 0]);
    SweepEmpty(s, 3, [y, x, 0, 0], [Pos(0, 0)], 2);
    TopPass([x, x, x, 0], []);
  }

  /** [y, x, 0, 0] is settled. */
  lemma PassYX00(x: nat, y: nat, locks: seq<Pos>)
    requires x > 0 && y == 2 * x
    ensures Pass(PassState(TopRow([y, x, 0, 0]), locks, 0), Left, 4) == PassState(TopRow([y, x, 0, 0]), locks, 0)
  {
    var s := PassState(TopRow([y, x, 0, 0]), locks, 0);
    SweepEdge(s, [y, x, 0, 0], locks, 0);
    SweepBlocked(s, 1, [y, x, 0, 0], locks, 0);
    SweepEmpty(s, 2, [y, x, 0, 0], locks, 0);
    SweepEmpty(s, 3, [y, x, 0, 0], locks, 0);
    TopPass([y, x, 0, 0], locks);
  }

  /** First pass over [x, x, y, 0]: the pair merges into y, and the old y
      slides next to it. */
  lemma PassXXY0(x: nat, y: nat)
    requires x > 0 && y == 2 * x
    ensures Pass(PassState(TopRow([x, x, y, 0]), [], 0), Left, 4) == PassState(TopRow([y, y, 0, 0]), [Pos(0, 0)], 2)
  {
    var s := PassState(TopRow([x, x, y, 0]), [], 0);
    SweepEdge(s, [x, x, y, 0], [], 0);
    SweepMerge(s, 1, [x, x, y, 0], [], 0, [y, 0, y, 0]);
    SweepSlide(s, 2, [y, 0, y, 0], [Pos(0, 0)], 1, [y, y, 0, 0]);
    SweepEmpty(s, 3, [y, y, 0, 0], [Pos(0, 0)], 2);
    TopPass([x, x, y, 0], []);
  }

  /** [y, y, 0, 0] with the left cell locked is settled: the two equal tiles
      do not merge. */
  lemma PassYY00(y: nat, locks: seq<Pos>)
    requires y > 0 && Pos(0, 0) in locks
    ensures Pass(PassState(TopRow([y, y, 0, 0]), locks, 0), Left, 4) == PassState(TopRow([y, y, 0, 0]), locks, 0)
  {
    var s := PassState(TopRow([y, y, 0, 0]), locks, 0);
    SweepEdge(s, [y, y, 0, 0], locks, 0);
    SweepLocked(s, 1, [y, y, 0, 0], locks, 0);
    SweepEmpty(s, 2, [y, y, 0, 0], locks, 0);
    SweepEmpty(s, 3, [y, y, 0, 0], locks, 0);
    TopPass([y, y, 0, 0], locks);
  }

  /** First pass over [x, x, x, x]: the first pair merges and the other two
      tiles slide one cell each. */
  lemma PassXXXX(x: nat, y: nat)
    requires x > 0 && y == 2 * x
    ensures Pass(PassState(TopRow([x, x, x, x]), [], 0), Left, 4) == PassState(TopRow([y, x, x, 0]), [Pos(0, 0)], 3)
  {
    var s := PassState(TopRow([x, x, x, x]), [], 0);
    SweepEdge(s, [x, x, x, x], [], 0);
    SweepMerge(s, 1, [x, x, x, x], [], 0, [y, 0, x, x]);
    SweepSlide(s, 2, [y, 0, x, x], [Pos(0, 0)], 1, [y, x, 0, x]);
    SweepSlide(s, 3, [y, x, 0, x], [Pos(0, 0)], 2, [y, x, x, 0]);
    TopPass([x, x, x, x], []);
  }

  /** The first two positions of the second pass over [y, x, x, 0] change
      nothing: the edge tile stays, and x is blocked by the unequal y. */
  lemma PassYXX0Front(x: nat, y: nat)
    requires x > 0 && y == 2 * x
    ensures var s := PassState(TopRow([y, x, x, 0]), [Pos(0, 0)], 0);
            ScanRow(s, Left, 4, 0, 2) == s
  {
    var s := PassState(TopRow([y, x, x, 0]), [Pos(0, 0)], 0);
    SweepEdge(s, [y, x, x, 0], [Pos(0, 0)], 0);
    SweepBlocked(s, 1, [y, x, x, 0], [Pos(0, 0)], 0);
  }

  /** The third position: the second pair merges into an unlocked cell. */
  lemma PassYXX0Merge(x: nat, y: nat, s: PassState)
    requires x > 0 && y == 2 * x
    requires s == PassState(TopRow([y, x, x, 0]), [Pos(0, 0)], 0)
    requires ScanRow(s, Left, 4, 0, 2) == s
    ensures ScanRow(s, Left, 4, 0, 3) == PassState(TopRow([y, y, 0, 0]), [Pos(0, 0), Pos(0, 1)], 1)
  {
    SweepMerge(s, 2, [y, x, x, 0], [Pos(0, 0)], 0, [y, y, 0, 0]);
    assert [Pos(0, 0)] + [Pos(0, 1)] == [Pos(0, 0), Pos(0, 1)];
  }

  /** The last position is empty. */
  lemma PassYXX0Last(x: nat, y: nat, s: PassState)
    requires x > 0 && y == 2 * x
    requires s == PassState(TopRow([y, x, x, 0]), [Pos(0, 0)], 0)
    requires ScanRow(s, Left, 4, 0, 3) == PassState(TopRow([y, y, 0, 0]), [Pos(0, 0), Pos(0, 1)], 1)
    ensures ScanRow(s, Left, 4, 0, 4) == PassState(TopRow([y, y, 0, 0]), [Pos(0, 0), Pos(0, 1)], 1)
  {
    SweepEmpty(s, 3, [y, y, 0, 0], [Pos(0, 0), Pos(0, 1)], 1);
  }

  /** Second pass over [y, x, x, 0]: the second pair merges, into an unlocked
      cell. */
  lemma PassYXX0(x: nat, y: nat)
    requires x > 0 && y == 2 * x
    ensures Pass(PassState(TopRow([y, x, x, 0]), [Pos(0, 0)], 0), Left, 4) == PassState(TopRow([y, y, 0, 0]), [Pos(0, 0), Pos(0, 1)], 1)
  {
    PassYXX0Front(x, y);
    var s := PassState(TopRow([y, x, x, 0]), [Pos(0, 0)], 0);
    PassYXX0Merge(x, y, s);
    PassYXX0Last(x, y, s);
    TopPass([y, x, x, 0], [Pos(0, 0)]);
  }

  /** [x, x, x, 0] moved left becomes [y, x, 0, 0] in two changes and one
      merge: the first pair merges, and the third x slides up against the new
      y, which it does not equal. */
  lemma MoveXXX0(x: nat, y: nat)
    requires x > 0 && y == 2 * x
    ensures Settle(TopRow([x, x, x, 0]), [], Left, 4) == PassState(TopRow([y, x, 0, 0]), [Pos(0, 0)], 2)
  {
    PassYX00(x, y, [Pos(0, 0)]);
    SettleStop(TopRow([y, x, 0, 0]), [Pos(0, 0)], Left, 4);
    PassXXX0(x, y);
    SettleThen(TopRow([x, x, x, 0]), [], Left, 4, TopRow([y, x, 0, 0]), [Pos(0, 0)], 2, PassState(TopRow([y, x, 0, 0]), [Pos(0, 0)], 0));
  }

  /** [x, x, y, 0] moved left becomes [y, y, 0, 0], not [2 * y, 0, 0, 0]: the
      merged tile is locked for the rest of the move. */
  lemma MoveXXY0(x: nat, y: nat)
    requires x > 0 && y == 2 * x
    ensures Settle(TopRow([x, x, y, 0]), [], Left, 4) == PassState(TopRow([y, y, 0, 0]), [Pos(0, 0)], 2)
  {
    PassYY00(y, [Pos(0, 0)]);
    SettleStop(TopRow([y, y, 0, 0]), [Pos(0, 0)], Left, 4);
    PassXXY0(x, y);
    SettleThen(TopRow([x, x, y, 0]), [], Left, 4, TopRow([y, y, 0, 0]), [Pos(0, 0)], 2, PassState(TopRow([y, y, 0, 0]), [Pos(0, 0)], 0));
  }

  /** From [y, x, x, 0], with the left cell locked, the rest of the move
      merges the second pair and stops. */
  lemma MoveYXX0(x: nat, y: nat)
    requires x > 0 && y == 2 * x
    ensures Settle(TopRow([y, x, x, 0]), [Pos(0, 0)], Left, 4) == PassState(TopRow([y, y, 0, 0]), [Pos(0, 0), Pos(0, 1)], 1)
  {
    PassYY00(y, [Pos(0, 0), Pos(0, 1)]);
    SettleStop(TopRow([y, y, 0, 0]), [Pos(0, 0), Pos(0, 1)], Left, 4);
    PassYXX0(x, y);
    SettleThen(TopRow([y, x, x, 0]), [Pos(0, 0)], Left, 4, TopRow([y, y, 0, 0]), [Pos(0, 0), Pos(0, 1)], 1,
               PassState(TopRow([y, y, 0, 0]), [Pos(0, 0), Pos(0, 1)], 0));
  }

  /** [x, x, x, x] moved left becomes [y, y, 0, 0]: two merges, one per pair,
      and the two results do not merge with each other. */
  lemma MoveXXXX(x: nat, y: nat)
    requires x > 0 && y == 2 * x
    ensures Settle(TopRow([x, x, x, x]), [], Left, 4) == PassState(TopRow([y, y, 0, 0]), [Pos(0, 0), Pos(0, 1)], 4)
  {
    MoveYXX0(x, y);
    PassXXXX(x, y);
    SettleThen(TopRow([x, x, x, x]), [], Left, 4, TopRow([y, x, x, 0]), [Pos(0, 0)], 3,
               PassState(TopRow([y, y, 0, 0]), [Pos(0, 0), Pos(0, 1)], 1));
  }

  /** First pass over [y, y, 0, 0] with no locks: the pair merges. */
  lemma PassYY00Fresh(y: nat, z: nat)
    requires y > 0 && z == 2 * y
    ensures Pass(PassState(TopRow([y, y, 0, 0]), [], 0), Left, 4) == PassState(TopRow([z, 0, 0, 0]), [Pos(0, 0)], 1)
  {
    var s := PassState(TopRow([y, y, 0, 0]), [], 0);
    SweepEdge(s, [y, y, 0, 0], [], 0);
    SweepMerge(s, 1, [y, y, 0, 0], [], 0, [z, 0, 0, 0]);
    SweepEmpty(s, 2, [z, 0, 0, 0], [Pos(0, 0)], 1);
    SweepEmpty(s, 3, [z, 0, 0, 0], [Pos(0, 0)], 1);
    TopPass([y, y, 0, 0], []);
  }

  /** [z, 0, 0, 0] is settled. */
  lemma PassZ000(z: nat, locks: seq<Pos>)
    ensures Pass(PassState(TopRow([z, 0, 0, 0]), locks, 0), Left, 4) == PassState(TopRow([z, 0, 0, 0]), locks, 0)
  {
    var s := PassState(TopRow([z, 0, 0, 0]), locks, 0);
    SweepEdge(s, [z, 0, 0, 0], locks, 0);
    SweepEmpty(s, 1, [z, 0, 0, 0], locks, 0);
    SweepEmpty(s, 2, [z, 0, 0, 0], locks, 0);
    SweepEmpty(s, 3, [z, 0, 0, 0], locks, 0);
    TopPass([z, 0, 0, 0], locks);
  }

  /** A new move on [y, y, 0, 0] starts with no locks, so the pair merges. */
  lemma MoveYY00(y: nat, z: nat)
    requires y > 0 && z == 2 * y
    ensures Settle(TopRow([y, y, 0, 0]), [], Left, 4) == PassState(TopRow([z, 0, 0, 0]), [Pos(0, 0)], 1)
  {
    PassZ000(z, [Pos(0, 0)]);
    SettleStop(TopRow([z, 0, 0, 0]), [Pos(0, 0)], Left, 4);
    PassYY00Fresh(y, z);
    SettleThen(TopRow([y, y, 0, 0]), [], Left, 4, TopRow([z, 0, 0, 0]), [Pos(0, 0)], 1, PassState(TopRow([z, 0, 0, 0]), [Pos(0, 0)], 0));
  }

  /** A move is not idempotent: the locks last one move only. [x, x, y, 0]
      moved left gives [y, y, 0, 0], and moving that left again gives
      [z, 0, 0, 0] with z = 2 * y. */
  lemma MoveNotIdempotent(x: nat, y: nat, z: nat)
    requires x > 0 && y == 2 * x && z == 2 * y
    ensures var once := Settle(TopRow([x, x, y, 0]), [], Left, 4).grid;
            && once == TopRow([y, y, 0, 0])
            && Settle(once, [], Left, 4).grid == TopRow([z, 0, 0, 0])
            && Settle(once, [], Left, 4).grid != once
  {
    MoveXXY0(x, y);
    MoveYY00(y, z);
    assert TopRow([z, 0, 0, 0])[0][1] != TopRow([y, y, 0, 0])[0][1];
  }

  /** The three rows with 2s: [2, 2, 2, 0] becomes [4, 2, 0, 0], [2, 2, 4, 0]
      becomes [4, 4, 0, 0] and [2, 2, 2, 2] becomes [4, 4, 0, 0]. */
  lemma MergeLockExamples()
    ensures Settle(TopRow([2, 2, 2, 0]), [], Left, 4).grid == TopRow([4, 2, 0, 0])
    ensures Settle(TopRow([2, 2, 4, 0]), [], Left, 4).grid == TopRow([4, 4, 0, 0])
    ensures Settle(TopRow([2, 2, 2, 2]), [], Left, 4).grid == TopRow([4, 4, 0, 0])
  {
    MoveXXX0(2, 4);
    MoveXXY0(2, 4);
    MoveXXXX(2, 4);
  }
}
