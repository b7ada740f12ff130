# Move resolution of a 2048 clone, in Dafny

This project models the move engine of `script.js`, a browser 2048 game.

An N x N grid of cells holds tiles. A key press picks a direction, which selects one of four groupings of the cells into lines, each line listed from the edge the tiles are pushed toward. The move then runs in two phases:

- `slideTilesInGroup` plans each line. Every tile slides back over the run of cells that accept it, either into an empty cell or parked as a pending merge on an equal tile.
- A commit pass applies every pending merge.

Around this sit four more pieces:

- a legality test (`canMoveInGroup`, `canMove`, `canMoveUp..Right`), checked before the move;
- one random spawn after a legal move;
- a game-over test after that spawn;
- `startGame`, which builds a fresh grid holding two tiles.

The modules are:

- **Cells**: a cell is a value. It holds an optional settled tile and an optional tile parked for a merge, each represented by its value. `grid.js` and `tile.js` are not part of this model. The operations `script.js` calls on cells are stated as assumptions in this module:
  - `canAccept`, `linkTile`, `unlinkTile` and `linkTileForMerge`;
  - `mergeTiles`, which doubles the settled value and drops the parked tile.
- **Lines**: the planning pass on one line, written as a specification on values.
  - `Step` is one iteration of the outer loop; `RunStart` is the backward scan.
  - `PlanFrom` and `PlanLine` cover the remaining iterations and the whole pass; `CommitLine` applies the merges.
  - The lemmas cover the legality–planner agreement, what a step does, no double merges, conservation, and the fact that a legal move changes the line.
- **Boards**: the board as a sequence of rows.
  - The four groupings are given by `Coord`, `LineIndex` and `PosIndex`.
  - The whole move is `Move = CommitBoard(PlanAll)`.
  - The module also holds the direction tests, the empty-cell list, the spawn, and the two boards a turn and a start produce.
- **Grids**: the mutable grid as a class over an `array2<Cell>`, whose methods change the cells in place.
  - `FindTarget` is the `while` loop of the backward scan.
  - `SlideTilesInGroup` is the `for` loop; `CommitMerges` is the commit pass.
  - `SlideTiles` plans every line and then commits.
  - `SpawnTile` adds one tile.
  - Each method is proved against the matching function of Boards or Lines.
- **Games**: the module-level state of `script.js` as a class.
  - Its fields are the grid, `gameStarted`, and whether the once-only keydown listener is armed.
  - Its methods are `startGame`, `setupInputOnce`, the four moves, `executeMove`, the game-over test after the spawn (`CheckGameOver`) and `handleInput`.
- **Scenarios**: concrete lines and a family of stuck boards.

Game over is detected only right after the spawn that follows a legal move (script.js:242-250). A key pressed on a stuck board while the game is still started is rejected like any illegal move, and input is re-armed (script.js:205-237). `Games.Game.ExecuteMove` states both paths.

A legal move always leaves an empty cell, so the spawn at script.js:240 always finds room: `Lines.LegalMoveLeavesEmptyCell` and `Boards.SpawnAfterLegalMove` prove this. `Boards.MoveChangesIffLegal` proves that a move changes the board exactly when `canMove` holds.

## Model

| member | source | states |
|---|---|---|
| Cells.IsEmpty | script.js:84 | assumed cell contract: a cell is empty iff it holds no settled tile; StepEffect states that an empty cell at index i is skipped, and CommitCell that commit keeps emptiness |
| Cells.HasTileForMerge | script.js:78 | assumed cell contract: a tile is parked on the cell for a merge; CommitCell states that commit merges exactly such cells and leaves none |
| Cells.CanAccept | script.js:92 | assumed cell contract: an empty cell accepts any tile, a cell with a tile accepts only an equal value and only while nothing is parked on it; the scan built on it is RunStart, whose ensures state the run it stops at |
| Cells.LinkTile | script.js:104 | assumed cell contract: the cell's settled tile becomes v, the parked tile is untouched; StepEffect and SpawnEffect state what this does to a line and a board |
| Cells.UnlinkTile | script.js:109 | assumed cell contract: the cell's settled slot becomes empty; StepEffect states that the source cell is left empty |
| Cells.LinkTileForMerge | script.js:106 | assumed cell contract: v is parked in the free merge slot of a cell holding a tile; StepSums states that this adds exactly one pending merge |
| Cells.MergeTiles | script.js:78 | assumed cell contract: the settled value is doubled and the parked tile dropped; CommitCell states that this keeps the cell's value |
| Cells.Commit | script.js:77-79 | one cell of the commit forEach: merge exactly when a tile is parked; CommitCell states its promise |
| Cells.CommitCell | script.js:77-79 | committing a cell's merge keeps its total value, removes one tile per pending merge, leaves no pending merge and does not change whether the cell is empty |
| Lines.RunStart | script.js:91-95 | the scan stops at the lowest index t with every cell of [t, j) accepting the tile and cell t-1 rejecting it (or t = 0) |
| Lines.Movable | script.js:134-145 | index k passes the callback of canMoveInGroup: k > 0, cell k holds a tile and cell k-1 accepts it; RelocationsIffMovable proves that the pass relocates a tile iff some index is movable |
| Lines.CanMoveInGroup | script.js:133-146 | some index of the group is movable; CanMoveInGroupIffRelocates proves this holds iff slideTilesInGroup pushes a promise |
| Lines.Step | script.js:84-109 | one iteration keeps the line's length and well-formedness, leaves no pending merge from index i+1 on, and does not touch cells beyond i |
| Lines.StepEffect | script.js:84-109 | an empty cell or a tile whose neighbour rejects it changes nothing; otherwise the tile goes to the farthest cell of the accepting run, as a settled tile if that cell was empty and as a pending merge on an equal tile if not, its source cell is left empty, and nothing else changes |
| Lines.StepSums | script.js:103-109 | an iteration keeps the total value and the tile count and adds one pending merge exactly when it parks the tile for a merge |
| Lines.StepSumMoved | script.js:103-109 | a relocation changes a line's sum only at the target cell and the source cell |
| Lines.PlanFrom | script.js:83-110 | the iterations i, ..., N-1 of the for loop keep the line's length and well-formedness; PlanFromSums, PlanFromSettles and PlanFromMoment state what they conserve and that they leave nothing movable |
| Lines.PlanLine | script.js:82-111 | slideTilesInGroup on one line keeps its length and well-formedness; PlannedLineIsStable, MergesAtMostHalf and CanMoveInGroupIffRelocates state its promises |
| Lines.RelocationsFrom | script.js:101 | the promises pushed by iterations i, ..., N-1, one per relocated tile; RelocationsIffMovable proves it is positive iff some index from i on is movable |
| Lines.Relocations | script.js:101 | the promises pushed by the whole pass on one line; Grids.Grid.SlideTilesInGroup returns it and CanMoveInGroupIffRelocates ties it to canMoveInGroup |
| Lines.CommitLine | script.js:77-79 | every cell of the line is committed; CommitLineSums proves value kept, count lowered by the pending merges and the line left quiet |
| Lines.MoveLine | script.js:71-80 | plan then commit on one line; MoveLineSums, LegalMoveChangesLine and the Scenarios lemmas state its outcome |
| Lines.RelocationsIffMovable | script.js:83-110 | the iterations from i relocate a tile iff some index from i on passes the canMoveInGroup test, and otherwise leave the line unchanged |
| Lines.PlanPrefix | script.js:84-110 | after the iterations 1, ..., i-1 the line keeps its length, stays well-formed, and has no pending merge from index i on |
| Lines.PrefixRelocations | script.js:101 | the promises pushed by iterations 1, ..., i-1; PlanPrefixFinishes proves it adds up with RelocationsFrom to the whole pass's count, and Grids.Grid.CountedSlide advances it |
| Lines.PlanPrefixFinishes | script.js:83-110 | the iterations before i followed by the iterations from i give the planned line, and their relocation counts add up to the whole pass's count |
| Lines.PlanPrefixComplete | script.js:83-110 | after the last iteration the line is the planned line and every relocation has been counted |
| Lines.CanMoveInGroupIffRelocates | script.js:133-146 | canMoveInGroup holds iff slideTilesInGroup relocates at least one tile (pushes a promise); when it fails, planning and commit leave the line unchanged |
| Lines.PassedTileStays | script.js:83-109 | a settled tile below the current index keeps its cell and value for the rest of the pass |
| Lines.HeadKeepsTile | script.js:83 | the cell at index 0 never loses its tile during planning |
| Lines.RunInteriorEmpty | script.js:91-95 | over a settled prefix, every cell strictly inside the scanned run is empty: a tile passes only through empty cells and meets at most one occupied cell |
| Lines.StepKeepsSettled | script.js:84-109 | after iteration i no tile at an index up to i can still move |
| Lines.PlanFromSettles | script.js:83-110 | the remaining iterations leave no movable tile in the whole line |
| Lines.PlannedLineIsStable | script.js:82-111 | after one planning sweep canMoveInGroup is false for the planned line |
| Lines.PlanFromSums | script.js:83-110 | planning keeps total value and tile count and never removes a pending merge |
| Lines.CommitLineSums | script.js:77-79 | committing a line keeps total value, reduces the tile count by the number of pending merges and leaves none |
| Lines.MoveLineSums | script.js:71-80 | a move of one line keeps total value and reduces the tile count by the number of merges it planned |
| Lines.PendingAtMostHalf | script.js:103-107 | in a well-formed line every pending merge pairs two tiles, so pending merges are at most half the tiles |
| Lines.QuietCount | script.js:77-79 | with no pending merge a line holds at most one tile per cell, and exactly one per cell iff no cell is empty |
| Lines.MergesAtMostHalf | script.js:82-111 | no double merges: a planned line holds at most floor(N/2) pending merges |
| Lines.FullLineMerges | script.js:83-110 | on a full line a movable index means the pass sets up at least one merge |
| Lines.LegalMoveLeavesEmptyCell | script.js:71-80 | after a legal move the line has an empty cell |
| Lines.StepMoment | script.js:103-109 | a relocation lowers the sum of tile distances from the target edge by exactly how far the tile moved; a non-relocation keeps it |
| Lines.PlanFromMoment | script.js:83-110 | planning never raises that sum and strictly lowers it when some tile is movable |
| Lines.CommitLineMoment | script.js:77-79 | committing merges never raises that sum |
| Lines.LegalMoveChangesLine | script.js:133-146 | a line that canMoveInGroup accepts is changed by the move |
| Boards.EmptyBoard | script.js:21 | a new grid is N x N with every cell empty and no pending merge |
| Boards.LineIndex | script.js:55-69 | the line of a grouping that holds cell (row, col), below N; Boards.CoordOfIndex proves it inverts Coord |
| Boards.PosIndex | script.js:55-69 | the position of cell (row, col) within its line, below N; Boards.CoordOfIndex proves it inverts Coord |
| Boards.Coord | script.js:55-69 | position k of line l of a grouping is a cell of the grid, and LineIndex/PosIndex recover (l, k) from it |
| Boards.CoordOfIndex | script.js:55-69 | every cell is position PosIndex of line LineIndex: the lines of a grouping partition the grid |
| Boards.LineAt | script.js:56-68 | line l of a grouping lists the grid cells at Coord(l, 0..N-1) |
| Boards.LinesOf | script.js:74 | the groupedCells array that slideTiles walks (and canMove at script.js:130): line l is LineAt(l); FromLinesOfLines and TotalFromLines prove that it lists every cell once |
| Boards.SetCell | script.js:240 | changing one cell changes that cell and no other |
| Boards.FromLinesOfLines | script.js:74 | writing back the lines of a grouping gives back the board |
| Boards.QuietLine | script.js:74 | every line of a board without pending merges has none |
| Boards.PlannedLines | script.js:74 | every line of the grouping planned independently |
| Boards.PlanAll | script.js:74 | each cell after planning is the cell of its own line's planned line: lines never interact |
| Boards.PlannedUpTo | script.js:74 | while the forEach is at line l, the lines before l are planned and every other cell is as it was |
| Boards.PlannedUpToEnds | script.js:74 | before the first line nothing is planned, and after the last line the board is PlanAll |
| Boards.PlannedUpToLine | script.js:74 | line l is still untouched when the forEach reaches it |
| Boards.PlannedUpToStep | script.js:74 | planning line l, and nothing else, advances the forEach from l to l+1 |
| Boards.PlannedCell | script.js:74 | a cell of the line just planned holds its PlanAll value |
| Boards.CommitBoard | script.js:77-79 | every cell with a pending merge merges it and every other cell is left alone |
| Boards.Move | script.js:71-80 | slideTiles: every line planned, then every cell committed; MoveTotals, MoveIsQuiet, IllegalMoveChangesNothing and MoveChangesIffLegal state its promises |
| Boards.Merges | script.js:103-106 | the number of tiles parked for a merge by the planning pass; MoveTotals proves that a move lowers the tile count by exactly this |
| Boards.CanMove | script.js:129-131 | some line of the grouping passes canMoveInGroup; the four adjacency lemmas characterise it cell by cell and MoveChangesIffLegal proves it holds iff the move changes the board |
| Boards.MoveIsQuiet | script.js:77-79 | no pending merge survives the commit pass of a move |
| Boards.MoveLineByLine | script.js:71-80 | line l of the moved board is line l moved on its own |
| Boards.IllegalMoveChangesNothing | script.js:129-131 | when canMove(grouping) is false, slideTiles leaves every cell as it was |
| Boards.MoveChangesIffLegal | script.js:129-131 | slideTiles changes the board iff canMove holds for its grouping |
| Boards.LegalMoveLeavesRoom | script.js:71-80 | after a legal move some cell is empty |
| Boards.TotalFromLines | script.js:74 | regrouping cells into lines does not change any board total |
| Boards.CommitBoardTotals | script.js:77-79 | the commit pass keeps total value, lowers the tile count by the number of merges and leaves no pending merge |
| Boards.MoveTotals | script.js:71-80 | a move keeps the total value, lowers the tile count by exactly the number of merges, and leaves no pending merge |
| Boards.UpAdjacency | script.js:113-115 | canMove on the column grouping holds iff some tile has an accepting cell directly above it |
| Boards.DownAdjacency | script.js:117-119 | canMove on the reversed-column grouping holds iff some tile has an accepting cell directly below it |
| Boards.LeftAdjacency | script.js:121-123 | canMove on the row grouping holds iff some tile has an accepting cell directly to its left |
| Boards.RightAdjacency | script.js:125-127 | canMove on the reversed-row grouping holds iff some tile has an accepting cell directly to its right |
| Boards.CanMoveUp | script.js:113-115 | true iff some tile's upper neighbour accepts it |
| Boards.CanMoveDown | script.js:117-119 | true iff some tile's lower neighbour accepts it |
| Boards.CanMoveLeft | script.js:121-123 | true iff some tile's left neighbour accepts it |
| Boards.CanMoveRight | script.js:125-127 | true iff some tile's right neighbour accepts it |
| Boards.StuckBoardIsFixed | script.js:242-247 | once no direction can move, every move leaves the board unchanged and still stuck |
| Boards.NoMovesLeft | script.js:242 | none of the four directions can move; StuckBoardIsFixed proves every move then leaves the board as it is, and Scenarios.CheckeredIsStuck gives a full board of every size that is stuck |
| Boards.EmptyCells | script.js:240 | lists exactly the empty cells of the board |
| Boards.SpawnAt | script.js:239-240 | the new tile is linked into the empty cell the parameter pick selects; SpawnEffect states that exactly that cell, entry pick mod the number of empty cells, changes |
| Boards.SpawnEffect | script.js:239-240 | a spawn fills the empty cell that pick selects (entry pick mod the number of empty cells) with a new settled tile of value v, changes no other cell, and adds one tile and v to the value |
| Boards.EmptyCellListed | script.js:240 | a board with an empty cell has a non-empty list of empty cells |
| Boards.SpawnAfterLegalMove | script.js:239-240 | after a legal move the spawn always finds an empty cell |
| Boards.Turn | script.js:198-240 | a legal turn leaves no pending merge, adds exactly v to the total value, and changes the tile count by one minus the number of merges |
| Boards.StartRoom | script.js:24-25 | on an N x N grid with N >= 2 both start spawns find an empty cell |
| Boards.StartBoard | script.js:21-25 | the start grid holds exactly two tiles, of total value v1 + v2, and no pending merge |
| Grids.Grid.Board | script.js:77 | the value of the grid is its cell array read row by row |
| Grids.Grid.constructor | script.js:21 | new Grid gives an N x N grid of empty cells |
| Grids.Grid.Group | script.js:83 | the group slideTilesInGroup walks lists the array cells at Coord(l, 0..N-1) |
| Grids.Grid.GroupIsLine | script.js:74 | the group read from the array is line l of the grid's board |
| Grids.FindTarget | script.js:90-99 | the while loop over the group finds no target iff the cell just below rejects the tile, and otherwise the farthest accepting cell, RunStart |
| Grids.Grid.SlideTile | script.js:84-109 | one iteration of the for loop changes line l exactly as Step does, reports a relocation iff the tile was movable, and touches no other line |
| Grids.Grid.CountedSlide | script.js:84-109 | iteration i advances the line and the count of pushed promises (script.js:101) from PlanPrefix at i to PlanPrefix at i+1, and touches no other line |
| Grids.Grid.Relocate | script.js:103-109 | the tile moves to the target, settled if the target was empty and parked for a merge if not, and its source is emptied; no other line changes |
| Grids.Grid.Put | script.js:240 | linkTile on the picked cell changes just that cell |
| Grids.Grid.SlideTilesInGroup | script.js:82-111 | the loop turns line l into PlanLine of it, returns the number of promises pushed (Relocations), and touches no other line |
| Grids.Grid.CommitMerges | script.js:77-79 | the forEach applies every pending merge: the grid becomes CommitBoard of the old grid |
| Grids.Grid.SlideTiles | script.js:71-80 | the grid becomes Move of the old grid for the grouping |
| Grids.Grid.PlanLines | script.js:74 | the forEach plans every line of the grouping in turn: the grid becomes PlanAll of the old grid |
| Grids.Grid.SpawnTile | script.js:240 | the grid becomes SpawnAt of the old grid |
| Grids.Grid.SpawnStartTiles | script.js:24-25 | the two start spawns on the empty grid give StartBoard |
| Grids.Grid.SpawnAfterMove | script.js:239-240 | the spawn after a legal move always has room and yields Turn of the grid before the move |
| Games.KeyGrouping | script.js:205-237 | ArrowUp, ArrowDown, ArrowLeft and ArrowRight select the column, reversed-column, row and reversed-row groupings, and every other key none; ExecuteMove's contract is stated through it |
| Games.Game.constructor | script.js:7-8 | before the first start the grid is empty, the game is not started and input is not armed |
| Games.Game.SetupInputOnce | script.js:42-49 | arms the keydown listener and changes nothing else |
| Games.Game.StartGame | script.js:16-33 | a fresh grid holding StartBoard (exactly two tiles, of total value v1 + v2), the game started and input armed |
| Games.Game.MoveUp | script.js:55-57 | slides along the column grouping, the one canMoveUp tests |
| Games.Game.MoveDown | script.js:59-61 | slides along the reversed-column grouping, the one canMoveDown tests |
| Games.Game.MoveLeft | script.js:63-65 | slides along the row grouping, the one canMoveLeft tests |
| Games.Game.MoveRight | script.js:67-69 | slides along the reversed-row grouping, the one canMoveRight tests |
| Games.Game.ExecuteMove | script.js:198-253 | not started, an unknown key or an illegal direction leave the grid unchanged and re-arm input; a legal key gives Turn of the old grid (one move, one spawn), the game stays started iff some direction can still move, and input is re-armed unless the game ended |
| Games.Game.CheckGameOver | script.js:242-252 | game over iff no direction can move, otherwise input re-armed; the grid is not touched |
| Games.Game.HandleInput | script.js:51-53 | the keydown listener is consumed and re-armed unless this key ended the game; for a legal key in a started game the grid becomes Turn and the game ends iff no direction can move; otherwise the grid and gameStarted stay as they were |
| Scenarios.FourTwos | script.js:83-110 | the line [2,2,2,2] becomes [4,4,_,_] |
| Scenarios.GapThenMerge | script.js:83-110 | the line [2,_,_,2] becomes [4,_,_,_] |
| Scenarios.NoChainMerge | script.js:83-110 | the line [2,2,4,_] becomes [4,4,_,_]: the 4 does not join the pending merge |
| Scenarios.SlideThenMerge | script.js:83-110 | the line [_,2,_,2] becomes [4,_,_,_] |
| Scenarios.StuckLine | script.js:133-146 | the line [2,4,8,16] cannot move and the move leaves it unchanged |
| Scenarios.Checkered | script.js:242 | a full board of alternating 2s and 4s |
| Scenarios.CheckeredNeighbours | script.js:144 | two neighbours on that board never accept each other |
| Scenarios.CheckeredIsStuck | script.js:242 | on a full checkered board of any size no direction can move |
| Scenarios.CheckeredVertical | script.js:113-119 | on that board neither up nor down can move |
| Scenarios.CheckeredHorizontal | script.js:121-127 | on that board neither left nor right can move |

## Left out

- The DOM and event wiring are not modelled: `getElementById`, `innerHTML`, the restart button's display and its click listener (script.js:4-5, 18, 28, 39, 246). The click listener's effect, a call to startGame, is `Games.Game.StartGame`.
- Touch gestures (script.js:149-196) are not modelled: on a started game they classify pixel coordinates into one of the four keys. A swipe on a started game reaches the engine as a direct `ExecuteMove` call, without consuming the keydown listener. A swipe while the game is not started does nothing (script.js:150, 158).
- The awaits on animations (`waitForTransitionEnd`, `Promise.all`, `waitForAnimationEnd`, script.js:72, 76, 101, 243) only affect presentation timing and are treated as no-ops. SlideTilesInGroup returns how many promises the pass pushes. The model takes a move to be atomic, so a second key or swipe arriving while a move awaits an animation is not modelled.
- Randomness is not modelled. The choice of `getRandomEmptyCell` is a parameter `pick`, and the new cell is entry `pick mod |EmptyCells|` of the row-major list of empty cells. The value of a new tile is a parameter `v`, and any natural value is allowed, so the 2-or-4 weighting of tile.js is not modelled.
- The internals of `grid.js` and `tile.js` (script.js:1-2) are not part of this model. What `script.js` relies on from them is assumed, in these places:
  - the cell operations (`canAccept`, `linkTile`, `unlinkTile`, `linkTileForMerge`, `hasTileForMerge`, `mergeTiles`): module Cells;
  - the four `cellsGrouped*` views: `Boards.Coord`, `Boards.LineIndex` and `Boards.PosIndex`, with row 0 at the top and column 0 at the left;
  - the empty cells of `new Grid`: `Boards.EmptyBoard` and `Grids.Grid.constructor`;
  - `getRandomEmptyCell`: `Boards.EmptyCells` and `Boards.SpawnAt`, with the choice as the parameter `pick`;
  - the value of a new `Tile`: the parameter `v`.
- Tile identity is not modelled: a tile is its value. The model does not track which tile object ends up in which cell, only the values and where they are.
- Games.Game.constructor and Games.Game.StartGame require N >= 2. With N = 1 the second start spawn finds no empty cell. The classic grid is 4 x 4.
- Only the once-only keydown listener is modelled, as the boolean `inputArmed`. This relies on addEventListener ignoring a second registration of the same listener, so re-arming an armed listener is a no-op.
