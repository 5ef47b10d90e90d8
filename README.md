# 2048 move engine and board predicates, in Dafny

This project models the core of a terminal 2048 game written in Rust. The game
keeps the board as a square grid of unsigned integers, with 0 for an empty
cell. One turn reads a direction and calls `update`, which resolves the move
in place. `update` makes repeated passes over the board. Each pass visits the
positions starting from the edge the tiles move toward. A tile slides one step
into an empty neighbour. Otherwise it merges into an equal neighbour, unless
either cell was already merged into during this move. Passes repeat until one
changes nothing. If the move changed anything, `spawn_new_block` writes a 2
(or a 4, on one roll in ten) into a randomly chosen empty cell. The game
stops when `win_condition` sees a tile of at least 2048. It also stops when
`playable_move_exists` finds no cell with an equal or empty neighbour.

Files:

- `board.dfy` (module `Board`) holds the board as a value (`Grid`), the
  directions as a datatype, and weighted totals over cells (cell sum, tile
  count, empty count). It also defines powers of two.
- `spawner.dfy` (module `Spawner`) holds `spawn_new_block` as a method on an
  `array2`. The list of legal positions and the spawned value are functions.
- `engine.dfy` (module `Engine`) holds `update` and its loops as methods on an
  `array2`.
  - Each method is proved against ghost functions: `Step` (one position),
    `ScanRow` and `ScanRows` (loop prefixes), `Pass` (one pass) and `Settle`
    (passes until quiet).
  - The lemmas prove what those functions keep, and that the move ends on a
    quiescent board.
- `predicates.dfy` (module `Predicates`) holds `win_condition`,
  `has_compatible_neighbours` and `playable_move_exists`, with their meanings
  and their relation to the move engine.
- `scenarios.dfy` (module `Scenarios`) holds concrete Left moves on a 4×4
  board. They show how the merge lock works. The lock lasts one move only, so
  a move is not idempotent: a second Left move merges again the pair the
  first move's lock kept apart (`MoveNotIdempotent`).
- `lines.dfy` (module `Lines`) proves that a move keeps lines apart. A Left or
  Right move turns each row into a result that depends on that row alone. An
  Up or Down move does the same for each column.
- `mirror.dfy` (module `Mirror`) proves that opposite directions are mirror
  images. Right on a board gives the mirror of what Left gives on the board
  with its columns reversed, and Down against Up with the rows reversed. The
  merges happen at the mirrored positions, in the same order, and the change
  counts are equal.

Two random draws become parameters:

- `Update` takes `genRange`, which must return a value below any positive
  bound, and `roll`.
- `SpawnNewBlock` takes the drawn `index` and `roll`.

About the end-of-game test:

- `has_compatible_neighbours` also accepts a cell whose neighbour is empty.
  So on a board of side at least 2, `playable_move_exists` holds exactly when
  some cell is empty or two adjacent cells are equal (`PlayableIff`).
- When `playable_move_exists` is false, no move changes anything
  (`StuckBoardIsQuiescent`).
- On a board holding at least one tile, the predicate holds exactly when some
  move changes the board (`PlayableIffSomeMoveChanges`).
- The all-empty board is the one exception (`EmptyBoardPlayableButFrozen`).
  The game never reaches it, because it starts by spawning two tiles.

## Model

| member | source | states |
|---|---|---|
| Engine.Update | src/main.rs:58-118 | Let r be the whole move from the old board with an empty lock list. The result reports a change exactly when r counted one. After a change some cell was empty, and the board is r's board with one tile spawned at the drawn index. With no change the board is exactly as before. |
| Engine.SlideOrMerge | src/main.rs:93-106 | One pass position: the board, lock list and change count afterwards are those of `Step`. That is a slide into an empty neighbour, else a merge into an equal neighbour when neither cell is locked (the neighbour is then locked), else nothing. |
| Engine.SweepLine | src/main.rs:91-108 | The inner loop walks the columns of one row, in the column order the move chooses (right to left for Right, left to right otherwise), for every direction. It leaves the board, locks and count equal to the full `ScanRow` of that row. |
| Engine.Sweep | src/main.rs:89-110 | One full pass, with loop directions chosen by the move: the board, locks and count it leaves are those of `Pass`. |
| Engine.IsInsideBoard | src/main.rs:120-128 | For a position on the board, the guard holds exactly when the neighbour in the move direction is on the board. |
| Engine.IsInside | src/main.rs:130-132 | True exactly when the position is in the list. |
| Engine.StepLocal | src/main.rs:93-106 | One step changes only the visited cell and its neighbour. So nothing outside that row (Left/Right) or column (Up/Down) changes. |
| Engine.StepConserves | src/main.rs:93-106 | One step keeps the cell sum and the tile count plus the lock count. The lock list only grows at its end and stays duplicate-free, and powers of two stay powers of two. Any change lowers the termination measure and leaves an empty cell. |
| Engine.StepTileCount | src/main.rs:93-106 | Per kind of step: a slide keeps the tile count and the locks, a merge removes exactly one tile and appends the neighbour to the locks, and a step that does neither changes nothing. |
| Engine.PassConserves | src/main.rs:89-110 | A whole pass keeps everything `StepConserves` keeps. |
| Engine.PassQuiet | src/main.rs:62-110 | A pass that counts no change visited every position and found none that could slide or merge. |
| Engine.SettleProps | src/main.rs:62-114 | Repeated passes stop, since each change lowers a measure bounded below. The final state keeps the sum, tile/lock balance and tile values, and no position can slide or merge any more. |
| Engine.SettleQuiescent | src/main.rs:62-114 | A move that starts on a quiescent board makes no change and leaves the board as it is. |
| Engine.ChangedIffDifferent | src/main.rs:111-117 | The move counts a change exactly when the resulting board differs from the starting board, so the spawn follows a real change only. |
| Engine.MoveConserves | src/main.rs:62-114 | Over a whole move the cell sum is kept. The tile count falls, and the empty count rises, by exactly the number of merges, and each merged position is listed once. Powers of two stay powers of two. |
| Engine.TurnTotals | src/main.rs:58-118 | A changing turn, spawn included: the sum grows by exactly the spawned value. The tile count becomes the old count minus the merges plus one. Tile values stay powers of two. |
| Spawner.EmptyCells | src/main.rs:135-138 | The legal spawn list holds exactly the empty cells, in row-major order. Its length is the number of empty cells. |
| Spawner.SpawnValue | src/main.rs:142 | The spawned value is 4 exactly when the roll is 1, and 2 otherwise. |
| Spawner.SpawnNewBlock | src/main.rs:134-145 | The board afterwards is the old board with the index-th empty cell set to the rolled value. |
| Spawner.SpawnContract | src/main.rs:134-145 | The chosen cell was empty and now holds 2 or 4, and every other cell is unchanged. There is one empty cell fewer and one tile more. The sum grows by the value and all values stay 0 or powers of two. |
| Predicates.WinCondition | src/main.rs:147-149 | True exactly when some cell holds at least 2048. |
| Predicates.HasCompatibleNeighbours | src/main.rs:151-163 | True exactly when some orthogonal neighbour on the board equals the cell or is empty. |
| Predicates.PlayableMoveExists | src/main.rs:165-167 | True exactly when some cell has a compatible neighbour. |
| Predicates.PlayableIff | src/main.rs:151-167 | On a board of side at least 2: playable exactly when some cell is empty or two adjacent cells are equal. |
| Predicates.StuckBoardIsQuiescent | src/main.rs:151-167 | A board that is not playable is quiescent in every direction, and a move on it changes nothing. |
| Predicates.PlayableSomeMoveChanges | src/main.rs:151-167 | A playable board with at least one tile has a direction whose move changes it. |
| Predicates.PlayableIffSomeMoveChanges | src/main.rs:151-167 | On a board of side at least 2 with a tile: playable exactly when some direction's move changes the board. |
| Predicates.EmptyBoardPlayableButFrozen | src/main.rs:151-167 | The all-empty board counts as playable, although no move changes it. |
| Lines.StepAgree | src/main.rs:93-106 | If two states hold the same cells and the same locks on one line (a row for Left/Right, a column for Up/Down), they still do after the same step at any position. |
| Lines.SettleAgree | src/main.rs:62-110 | Two boards that agree on one line, cells and locks, still agree on it after the whole move, even when they take different numbers of passes. |
| Lines.MoveRowIndependent | src/main.rs:58-110 | Under Left or Right, two boards with equal row r end the move with equal row r. |
| Lines.MoveColumnIndependent | src/main.rs:58-110 | Under Up or Down, two boards with equal column c end the move with equal column c. |
| Mirror.StepMirror | src/main.rs:93-106 | A step on a state, and the opposite direction's step at the mirrored position on the mirrored state, leave mirrored states. The cells are mirrored, the locks are mirrored in the same order, and the change counts are equal. |
| Mirror.PassMirror | src/main.rs:89-110 | One pass in a direction, and one in the opposite direction from the mirrored state, end mirrored. The opposite loop order visits exactly the mirrored positions, in the same sequence. |
| Mirror.SettleMirror | src/main.rs:62-110 | The whole move from mirrored states, in opposite directions, ends mirrored. |
| Mirror.MoveMirror | src/main.rs:58-110 | A move on a board and the opposite move on its mirrored board give mirrored results, with the same merges at mirrored positions and the same change count. |
| Mirror.MoveMirrorGrid | src/main.rs:58-110 | The same symmetry as an equality of boards. Left on the board with its columns reversed gives exactly the Right result with its columns reversed, and likewise for every direction and its opposite, with the change counts equal. |
| Scenarios.MoveXXX0 | src/main.rs:98-106 | A Left move on top row [x,x,x,0] ends as [2x,x,0,0], with two changes and the one lock (0,0). The first pair merges, and the third x slides up against the new 2x, which it does not equal. The lock itself is shown at work by MoveXXY0 and MoveXXXX. |
| Scenarios.MoveXXY0 | src/main.rs:98-106 | A Left move on [x,x,2x,0] ends as [2x,2x,0,0]. The fresh 2x may not absorb the old 2x. |
| Scenarios.MoveYXX0 | src/main.rs:98-106 | From [2x,x,x,0] with the left cell already locked, the move merges the second pair into [2x,2x,0,0] and locks it too. |
| Scenarios.MoveXXXX | src/main.rs:98-106 | A Left move on [x,x,x,x] ends as [2x,2x,0,0], with two merges. |
| Scenarios.MoveYY00 | src/main.rs:61-110 | A new Left move on [y,y,0,0] starts with no locks, so the pair merges into [2y,0,0,0] with one change and the lock (0,0). |
| Scenarios.MoveNotIdempotent | src/main.rs:61-110 | A move is not idempotent, since the lock list starts empty on every call. [x,x,y,0] moved left gives [y,y,0,0], and moving that left again gives [2y,0,0,0], a different board. |
| Scenarios.MergeLockExamples | src/main.rs:98-106 | With 2s: [2,2,2,0] gives [4,2,0,0], [2,2,4,0] gives [4,4,0,0], and [2,2,2,2] gives [4,4,0,0]. |

## Left out

- The main loop, terminal I/O, screen clearing and board display are not modelled. They are input and output only.
- The random number generator is not modelled. Its two draws are parameters of `Update` and `SpawnNewBlock`.
- Direction strings and the panic on an unknown key are not modelled. A direction is a datatype with four values, so the panic arm of `update` and the `false` arm of `is_inside_board` cannot arise.
- Spawner.SpawnNewBlock: calling spawn_new_block on a full board panics, because the index range is empty. This is a precondition here, and `Update` proves it holds whenever it spawns.
- Cell values are unbounded naturals, not 32-bit unsigned integers. The `*= 2` of a merge could only overflow above 2^31, which a 4×4 board cannot reach.
- The two spawns that set up a new game in the main function are not modelled. They are sequencing of `SpawnNewBlock` calls.
- Engine.Update: the board a move leaves is not proved equal to the usual statement of a 2048 move, which compacts the line toward the edge, merges equal neighbouring pairs starting from that edge, and compacts again. The model instead proves these facts about the result. It is quiescent: no tile can slide or merge. The cell sum is kept. Each merge removes one tile and locks one position, and no position is locked twice. Powers of two stay powers of two. Rows (Left/Right) and columns (Up/Down) move independently of each other. Opposite directions are mirror images. Concrete traces fix the result for the rows [x,x,x,0], [x,x,2x,0], [2x,x,x,0], [x,x,x,x] and [y,y,0,0].
- A 90-degree rotation between, say, Left and Up is not stated. It would need the grid transposed; only the mirror symmetry between opposite directions is proved.
- Scenarios.MoveXXX0: the concrete traces cover Left moves on the top row of an otherwise empty 4×4 board only. The general properties are proved for every direction and size.
- The source's change counter and loop indices are signed machine integers. The model uses mathematical integers, since their values stay within the board size and pass length.
