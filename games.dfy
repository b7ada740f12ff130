/** The turn state machine of script.js: the module-level `grid` and
    `gameStarted`, whether the keyboard listener is armed, and the
    operations startGame, executeMove, handleInput and the four moves. */
module Games {
  import opened Cells
  import opened Boards
  import opened Grids

  /** The grouping executeMove dispatches to for a key (script.js:205-237),
      None for a key it does not recognise. */
  function KeyGrouping(key: string): Option<Grouping> {
    if key == "ArrowUp" then Some(ByColumn)
    else if key == "ArrowDown" then Some(ByReversedColumn)
    else if key == "ArrowLeft" then Some(ByRow)
    else if key == "ArrowRight" then Some(ByReversedRow)
    else None
  }

  class Game {
    const n: nat
    var grid: Grid
    var gameStarted: bool
    /** Whether the once-only keydown listener of setupInputOnce is pending. */
    var inputArmed: bool

    /** Between turns the grid is an n x n board with no pending merge. */
    ghost predicate Valid()
      reads this, grid, grid.cells
    {
      grid.Valid() && grid.n == n && n >= 2 && QuietBoard(grid.Board())
    }

    /** The module-level state before the first startGame (script.js:7-8). */
    constructor (size: nat)
      requires size >= 2
      ensures Valid() && n == size && fresh(grid) && fresh(grid.cells)
      ensures grid.Board() == EmptyBoard(size)
      ensures !gameStarted && !inputArmed
    {
      n := size;
      grid := new Grid(size);
      gameStarted := false;
      inputArmed := false;
      new;
    }

    /** setupInputOnce (script.js:42-49): arms the keydown listener. */
    method SetupInputOnce()
      modifies this
      ensures inputArmed
      ensures grid == old(grid) && gameStarted == old(gameStarted)
    {
      inputArmed := true;
    }

    /** startGame (script.js:16-33): a fresh grid holding exactly the two
        spawned tiles, input armed, game started. */
    method StartGame(pick1: nat, v1: nat, pick2: nat, v2: nat)
      requires n >= 2
      modifies this
      ensures Valid() && fresh(grid) && fresh(grid.cells)
      ensures grid.Board() == StartBoard(n, pick1, v1, pick2, v2)
      ensures gameStarted && inputArmed
    {
      var g := new Grid(n);
      g.SpawnStartTiles(pick1, v1, pick2, v2);
      grid := g;
      SetupInputOnce();
      gameStarted := true;
    }

    /** moveUp, moveDown, moveLeft, moveRight (script.js:55-69): slideTiles on
        the grouping of the direction. */
    method MoveUp()
      requires Valid()
      modifies grid.cells
      ensures Valid() && grid.Board() == Move(old(grid.Board()), ByColumn)
    {
      MoveIsQuiet(grid.Board(), ByColumn);
      grid.SlideTiles(ByColumn);
    }

    method MoveDown()
      requires Valid()
      modifies grid.cells
      ensures Valid() && grid.Board() == Move(old(grid.Board()), ByReversedColumn)
    {
      MoveIsQuiet(grid.Board(), ByReversedColumn);
      grid.SlideTiles(ByReversedColumn);
    }

    method MoveLeft()
      requires Valid()
      modifies grid.cells
      ensures Valid() && grid.Board() == Move(old(grid.Board()), ByRow)
    {
      MoveIsQuiet(grid.Board(), ByRow);
      grid.SlideTiles(ByRow);
    }

    method MoveRight()
      requires Valid()
      modifies grid.cells
      ensures Valid() && grid.Board() == Move(old(grid.Board()), ByReversedRow)
    {
      MoveIsQuiet(grid.Board(), ByReversedRow);
      grid.SlideTiles(ByReversedRow);
    }

    /** executeMove (script.js:198-253). A game that has not started, an
        unknown key and a direction that cannot move leave the grid as it was
        and re-arm input. A legal move is followed by exactly one spawn; the
        game then ends iff no direction can move, and otherwise input is
        re-armed. `pick` and `v` stand for the random cell and the new value. */
    method ExecuteMove(key: string, pick: nat, v: nat)
      requires Valid()
      modifies this, grid.cells
      ensures Valid() && grid == old(grid)
      ensures !old(gameStarted) ==>
        grid.Board() == old(grid.Board()) && !gameStarted && inputArmed
      ensures old(gameStarted) && (KeyGrouping(key).None? || !CanMove(old(grid.Board()), KeyGrouping(key).value)) ==>
        grid.Board() == old(grid.Board()) && gameStarted && inputArmed
      ensures old(gameStarted) && KeyGrouping(key).Some? && CanMove(old(grid.Board()), KeyGrouping(key).value) ==>
        && grid.Board() == Turn(old(grid.Board()), KeyGrouping(key).value, pick, v)
        && (gameStarted <==> !NoMovesLeft(grid.Board()))
        && inputArmed == (gameStarted || old(inputArmed))
    {
      if !gameStarted {
        SetupInputOnce();
        return;
      }
      ghost var B := grid.Board();
      var legal: bool;
      if key == "ArrowUp" {
        legal := CanMoveUp(grid.Board());
        if legal {
          MoveUp();
        }
      } else if key == "ArrowDown" {
        legal := CanMoveDown(grid.Board());
        if legal {
          MoveDown();
        }
      } else if key == "ArrowLeft" {
        legal := CanMoveLeft(grid.Board());
        if legal {
          MoveLeft();
        }
      } else if key == "ArrowRight" {
        legal := CanMoveRight(grid.Board());
        if legal {
          MoveRight();
        }
      } else {
        legal := false;
      }
      if !legal {
        SetupInputOnce();
        return;
      }
      grid.SpawnAfterMove(B, KeyGrouping(key).value, pick, v);
      CheckGameOver();
    }

    /** The game-over test at the end of an accepted turn (script.js:242-252):
        the game ends iff no direction can move, and otherwise input is
        re-armed. The grid is not touched. */
    method CheckGameOver()
      requires Valid() && gameStarted
      modifies this
      ensures Valid() && grid == old(grid) && grid.Board() == old(grid.Board())
      ensures gameStarted <==> !NoMovesLeft(grid.Board())
      ensures inputArmed == (gameStarted || old(inputArmed))
    {
      var stuck := NoMovesLeft(grid.Board());
      if stuck {
        gameStarted := false;
      } else {
        SetupInputOnce();
      }
    }

    /** handleInput (script.js:51-53) as the once-only keydown listener: the
        listener is consumed, then executeMove runs. Input ends up armed
        unless this very key ended the game. */
    method HandleInput(key: string, pick: nat, v: nat)
      requires Valid() && inputArmed
      modifies this, grid.cells
      ensures Valid() && grid == old(grid)
      ensures inputArmed <==> gameStarted || !old(gameStarted)
      ensures old(gameStarted) && KeyGrouping(key).Some? && CanMove(old(grid.Board()), KeyGrouping(key).value) ==>
        && grid.Board() == Turn(old(grid.Board()), KeyGrouping(key).value, pick, v)
        && (gameStarted <==> !NoMovesLeft(grid.Board()))
      ensures !(old(gameStarted) && KeyGrouping(key).Some? && CanMove(old(grid.Board()), KeyGrouping(key).value)) ==>
        grid.Board() == old(grid.Board()) && gameStarted == old(gameStarted)
    {
      inputArmed := false;
      ExecuteMove(key, pick, v);
    }
  }
}
