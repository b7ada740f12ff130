/** Concrete lines and boards, written target edge first, whose outcome
    follows from the loop of slideTilesInGroup (script.js:83-110) and the
    legality check (script.js:113-146). */
module Scenarios {
  import opened Cells
  import opened Lines
  import opened Boards

  function T(v: nat): Cell {
    Cell(Some(v), None)
  }

  const E: Cell := EmptyCell

  /** [2,2,2,2] becomes [4,4,_,_]: the third tile cannot join the first
      cell, whose merge slot is taken, so it settles next to it. */
  lemma FourTwos()
    ensures MoveLine([T(2), T(2), T(2), T(2)]) == [T(4), T(4), E, E]
  {
    var L := [T(2), T(2), T(2), T(2)];
    var L1 := L[0 := Cell(Some(2), Some(2))][1 := E];
    assert Step(L, 1) == L1;
    var L2 := L1[1 := T(2)][2 := E];
    assert Step(L1, 2) == L2;
    var L3 := L2[1 := Cell(Some(2), Some(2))][3 := E];
    assert Step(L2, 3) == L3;
    assert PlanLine(L) == L3;
  }

  /** [2,_,_,2] becomes [4,_,_,_]: the tile crosses the whole empty run. */
  lemma GapThenMerge()
    ensures MoveLine([T(2), E, E, T(2)]) == [T(4), E, E, E]
  {
    var L := [T(2), E, E, T(2)];
    assert Step(L, 1) == L;
    assert Step(L, 2) == L;
    var L3 := L[0 := Cell(Some(2), Some(2))][3 := E];
    assert Step(L, 3) == L3;
    assert PlanFrom(L3, 4) == L3;
    assert PlanFrom(L, 3) == L3;
    assert PlanFrom(L, 2) == L3;
    assert PlanLine(L) == L3;
  }

  /** [2,2,4,_] becomes [4,4,_,_]: the 4 does not merge with the pending
      merge in front of it, since only the commit pass doubles. */
  lemma NoChainMerge()
    ensures MoveLine([T(2), T(2), T(4), E]) == [T(4), T(4), E, E]
  {
    var L := [T(2), T(2), T(4), E];
    var L1 := L[0 := Cell(Some(2), Some(2))][1 := E];
    assert Step(L, 1) == L1;
    var L2 := L1[1 := T(4)][2 := E];
    assert Step(L1, 2) == L2;
    assert Step(L2, 3) == L2;
    assert PlanFrom(L2, 4) == L2;
    assert PlanFrom(L2, 3) == L2;
    assert PlanFrom(L1, 2) == L2;
    assert PlanLine(L) == L2;
  }

  /** [_,2,_,2] becomes [4,_,_,_]. */
  lemma SlideThenMerge()
    ensures MoveLine([E, T(2), E, T(2)]) == [T(4), E, E, E]
  {
    var L := [E, T(2), E, T(2)];
    var L1 := L[0 := T(2)][1 := E];
    assert Step(L, 1) == L1;
    assert Step(L1, 2) == L1;
    var L3 := L1[0 := Cell(Some(2), Some(2))][3 := E];
    assert Step(L1, 3) == L3;
    assert PlanFrom(L3, 4) == L3;
    assert PlanFrom(L1, 3) == L3;
    assert PlanFrom(L1, 2) == L3;
    assert PlanLine(L) == L3;
  }

  /** [2,4,8,16] cannot move, and the planner leaves it as it is. */
  lemma StuckLine()
    ensures !CanMoveInGroup([T(2), T(4), T(8), T(16)])
    ensures MoveLine([T(2), T(4), T(8), T(16)]) == [T(2), T(4), T(8), T(16)]
  {
    var L := [T(2), T(4), T(8), T(16)];
    assert !Movable(L, 1) && !Movable(L, 2) && !Movable(L, 3);
    assert Step(L, 1) == L;
    assert Step(L, 2) == L;
    assert Step(L, 3) == L;
    assert PlanLine(L) == L;
  }

  /** A full n x n board of alternating 2s and 4s. */
  function Checkered(n: nat): (B: Board)
    ensures |B| == n && IsSquare(B)
    ensures forall r, c :: 0 <= r < n && 0 <= c < n ==> B[r][c] == if (r + c) % 2 == 0 then T(2) else T(4)
  {
    seq(n, r => seq(n, c => if (r + c) % 2 == 0 then T(2) else T(4)))
  }

  /** Two neighbours on a checkered board never accept each other. */
  lemma CheckeredNeighbours(n: nat, r: nat, c: nat, r': nat, c': nat)
    requires r < n && c < n && r' < n && c' < n && (r + c + 1 == r' + c' || r' + c' + 1 == r + c)
    ensures !CanAccept(Checkered(n)[r'][c'], Checkered(n)[r][c].tile.value)
  {
    assert (r + c) % 2 != (r' + c') % 2;
  }

  /** On a checkered board of any size no direction can move: the game is
      over although no cell is empty. */
  lemma CheckeredIsStuck(n: nat)
    ensures NoMovesLeft(Checkered(n))
  {
    CheckeredVertical(n);
    CheckeredHorizontal(n);
  }

  lemma CheckeredVertical(n: nat)
    ensures !CanMoveUp(Checkered(n)) && !CanMoveDown(Checkered(n))
  {
    var B: Board := Checkered(n);
    forall r: nat, c: nat | 0 < r < n && 0 <= c < n ensures !CanAccept(B[r - 1][c], B[r][c].tile.value) {
      CheckeredNeighbours(n, r, c, r - 1, c);
    }
    forall r: nat, c: nat | 0 <= r < n - 1 && 0 <= c < n ensures !CanAccept(B[r + 1][c], B[r][c].tile.value) {
      CheckeredNeighbours(n, r, c, r + 1, c);
    }
  }

  lemma CheckeredHorizontal(n: nat)
    ensures !CanMoveLeft(Checkered(n)) && !CanMoveRight(Checkered(n))
  {
    var B: Board := Checkered(n);
    forall r: nat, c: nat | 0 <= r < n && 0 < c < n ensures !CanAccept(B[r][c - 1], B[r][c].tile.value) {
      CheckeredNeighbours(n, r, c, r, c - 1);
    }
    forall r: nat, c: nat | 0 <= r < n && 0 <= c < n - 1 && c + 1 < n ensures !CanAccept(B[r][c + 1], B[r][c].tile.value) {
      CheckeredNeighbours(n, r, c, r, c + 1);
    }
  }
}
