/** The whole N x N board as a value, the four grouped views of it
    (cellsGroupedByRow, ...ByReversedRow, ...ByColumn, ...ByReversedColumn,
    defined in grid.js, which is not part of this model), the move of
    slideTiles (script.js:71-80) and the legality test canMove
    (script.js:113-131). Row 0 is the top edge and column 0 the left edge. */
module Boards {
  import opened Cells
  import opened Lines

  type Board = seq<seq<Cell>>

  predicate IsSquare(B: Board) {
    forall r :: 0 <= r < |B| ==> |B[r]| == |B|
  }

  predicate QuietBoard(B: Board) {
    IsSquare(B) && forall r, c :: 0 <= r < |B| && 0 <= c < |B| ==> B[r][c].mergeTile.None?
  }

  predicate WellFormedBoard(B: Board) {
    IsSquare(B) && forall r, c :: 0 <= r < |B| && 0 <= c < |B| ==> WellFormed(B[r][c])
  }

  function EmptyBoard(n: nat): (B: Board)
    ensures |B| == n && QuietBoard(B)
    ensures forall r, c :: 0 <= r < n && 0 <= c < n ==> B[r][c] == EmptyCell
  {
    seq(n, _ => seq(n, _ => EmptyCell))
  }

  /** The four grouped views: a line is a row or a column, listed from the
      edge the move pushes toward. */
  datatype Grouping = ByRow | ByReversedRow | ByColumn | ByReversedColumn

  /** The line of a grouping that holds cell (r, c). */
  function LineIndex(d: Grouping, n: nat, r: nat, c: nat): (l: nat)
    requires r < n && c < n
    ensures l < n
  {
    match d
    case ByRow => r
    case ByReversedRow => r
    case ByColumn => c
    case ByReversedColumn => c
  }

  /** The position of cell (r, c) within its line. */
  function PosIndex(d: Grouping, n: nat, r: nat, c: nat): (k: nat)
    requires r < n && c < n
    ensures k < n
  {
    match d
    case ByRow => c
    case ByReversedRow => n - 1 - c
    case ByColumn => r
    case ByReversedColumn => n - 1 - r
  }

  /** The (row, column) of position k of line l; inverse of LineIndex/PosIndex,
      so each grouping lists every cell exactly once. This is the assumed
      layout of grid.js's cellsGroupedByRow, cellsGroupedByReversedRow,
      cellsGroupedByColumn and cellsGroupedByReversedColumn: row 0 at the top,
      column 0 at the left, each line listed from the edge tiles move toward. */
  function Coord(d: Grouping, n: nat, l: nat, k: nat): (rc: (nat, nat))
    requires l < n && k < n
    ensures rc.0 < n && rc.1 < n
    ensures LineIndex(d, n, rc.0, rc.1) == l && PosIndex(d, n, rc.0, rc.1) == k
  {
    match d
    case ByRow => (l, k)
    case ByReversedRow => (l, n - 1 - k)
    case ByColumn => (k, l)
    case ByReversedColumn => (n - 1 - k, l)
  }

  lemma CoordOfIndex(d: Grouping, n: nat, r: nat, c: nat)
    requires r < n && c < n
    ensures Coord(d, n, LineIndex(d, n, r, c), PosIndex(d, n, r, c)) == (r, c)
  {
  }

  /** Line l of grouping d. */
  function LineAt(B: Board, d: Grouping, l: nat): (L: Line)
    requires IsSquare(B) && l < |B|
    ensures |L| == |B|
    ensures forall k :: 0 <= k < |B| ==> L[k] == B[Coord(d, |B|, l, k).0][Coord(d, |B|, l, k).1]
  {
    seq(|B|, k requires 0 <= k < |B| => B[Coord(d, |B|, l, k).0][Coord(d, |B|, l, k).1])
  }

  /** All lines of grouping d, one per row of the result. */
  function LinesOf(B: Board, d: Grouping): (Ls: Board)
    requires IsSquare(B)
    ensures |Ls| == |B| && IsSquare(Ls)
    ensures forall l :: 0 <= l < |B| ==> Ls[l] == LineAt(B, d, l)
  {
    seq(|B|, l requires 0 <= l < |B| => LineAt(B, d, l))
  }

  /** The board whose lines in grouping d are Ls. */
  function FromLines(Ls: Board, d: Grouping): (B: Board)
    requires IsSquare(Ls)
    ensures |B| == |Ls| && IsSquare(B)
    ensures forall r, c :: 0 <= r < |Ls| && 0 <= c < |Ls| ==>
      B[r][c] == Ls[LineIndex(d, |Ls|, r, c)][PosIndex(d, |Ls|, r, c)]
  {
    var n := |Ls|;
    seq(n, r requires 0 <= r < n => seq(n, c requires 0 <= c < n => Ls[LineIndex(d, n, r, c)][PosIndex(d, n, r, c)]))
  }

  /** The board with cell (r, c) replaced by x. */
  function SetCell(B: Board, r: nat, c: nat, x: Cell): (S: Board)
    requires IsSquare(B) && r < |B| && c < |B|
    ensures |S| == |B| && IsSquare(S)
    ensures forall r', c' :: 0 <= r' < |B| && 0 <= c' < |B| ==> S[r'][c'] == if (r', c') == (r, c) then x else B[r'][c']
  {
    B[r := B[r][c := x]]
  }

  lemma SameBoard(A: Board, B: Board)
    requires IsSquare(A) && IsSquare(B) && |A| == |B|
    requires forall r, c :: 0 <= r < |A| && 0 <= c < |A| ==> A[r][c] == B[r][c]
    ensures A == B
  {
    forall r | 0 <= r < |A| ensures A[r] == B[r] {
      assert forall c :: 0 <= c < |A| ==> A[r][c] == B[r][c];
    }
  }

  /** Reading a board's lines and putting them back gives the board again,
      and the other way round. */
  lemma FromLinesOfLines(B: Board, d: Grouping)
    requires IsSquare(B)
    ensures FromLines(LinesOf(B, d), d) == B
  {
    var n := |B|;
    forall r, c | 0 <= r < n && 0 <= c < n ensures FromLines(LinesOf(B, d), d)[r][c] == B[r][c] {
      CoordOfIndex(d, n, r, c);
    }
    SameBoard(FromLines(LinesOf(B, d), d), B);
  }

  // ---------------------------------------------------------------------------
  // The move of slideTiles.

  /** Every line of a quiet board is quiet. */
  lemma QuietLine(B: Board, d: Grouping, l: nat)
    requires QuietBoard(B) && l < |B|
    ensures Quiet(LineAt(B, d, l))
  {
  }

  /** The planning phase (script.js:74): every line of the grouping planned. */
  function PlannedLines(B: Board, d: Grouping): (Ls: Board)
    requires QuietBoard(B)
    ensures |Ls| == |B| && IsSquare(Ls)
    ensures forall l :: 0 <= l < |B| ==> Quiet(LineAt(B, d, l)) && Ls[l] == PlanLine(LineAt(B, d, l))
  {
    seq(|B|, l requires 0 <= l < |B| => QuietLine(B, d, l); PlanLine(LineAt(B, d, l)))
  }

  /** Cell (r, c) of the planned board is its own cell of its own line, planned. */
  function PlanAll(B: Board, d: Grouping): (P: Board)
    requires QuietBoard(B)
    ensures |P| == |B| && WellFormedBoard(P)
    ensures forall r, c :: 0 <= r < |B| && 0 <= c < |B| ==>
      Quiet(LineAt(B, d, LineIndex(d, |B|, r, c))) &&
      P[r][c] == PlanLine(LineAt(B, d, LineIndex(d, |B|, r, c)))[PosIndex(d, |B|, r, c)]
  {
    var P := FromLines(PlannedLines(B, d), d);
    assert forall r, c :: 0 <= r < |B| && 0 <= c < |B| ==> 
      WellFormedLine(PlannedLines(B, d)[LineIndex(d, |B|, r, c)]);
    P
  }

  /** The board once the first l lines of grouping d have been planned, in
      the order the forEach of script.js:74 visits them. */
  function PlannedUpTo(B: Board, d: Grouping, l: nat): (X: Board)
    requires QuietBoard(B)
    ensures |X| == |B| && IsSquare(X)
    ensures forall r, c :: 0 <= r < |B| && 0 <= c < |B| ==>
      X[r][c] == if LineIndex(d, |B|, r, c) < l then PlanAll(B, d)[r][c] else B[r][c]
  {
    var P := PlanAll(B, d);
    seq(|B|, r requires 0 <= r < |B| =>
      seq(|B|, c requires 0 <= c < |B| => if LineIndex(d, |B|, r, c) < l then P[r][c] else B[r][c]))
  }

  lemma PlannedUpToEnds(B: Board, d: Grouping)
    requires QuietBoard(B)
    ensures PlannedUpTo(B, d, 0) == B && PlannedUpTo(B, d, |B|) == PlanAll(B, d)
  {
    SameBoard(PlannedUpTo(B, d, 0), B);
    SameBoard(PlannedUpTo(B, d, |B|), PlanAll(B, d));
  }

  /** Line l is still as it was before its turn comes. */
  lemma PlannedUpToLine(B: Board, d: Grouping, l: nat)
    requires QuietBoard(B) && l < |B|
    ensures LineAt(PlannedUpTo(B, d, l), d, l) == LineAt(B, d, l)
  {
    var X := PlannedUpTo(B, d, l);
    forall k | 0 <= k < |B| ensures LineAt(X, d, l)[k] == LineAt(B, d, l)[k] {
      var rc := Coord(d, |B|, l, k);
    }
  }

  /** Planning line l alone, and touching no other line, takes the board
      planned up to l to the board planned up to l + 1. */
  lemma PlannedUpToStep(B: Board, d: Grouping, l: nat, X: Board)
    requires QuietBoard(B) && l < |B| && IsSquare(X) && |X| == |B|
    requires forall r, c :: 0 <= r < |B| && 0 <= c < |B| && LineIndex(d, |B|, r, c) != l ==>
      X[r][c] == PlannedUpTo(B, d, l)[r][c]
    requires Quiet(LineAt(B, d, l)) && LineAt(X, d, l) == PlanLine(LineAt(B, d, l))
    ensures X == PlannedUpTo(B, d, l + 1)
  {
    var n := |B|;
    var Y := PlannedUpTo(B, d, l + 1);
    forall r, c | 0 <= r < n && 0 <= c < n && LineIndex(d, n, r, c) == l ensures X[r][c] == Y[r][c] {
      PlannedCell(B, d, l, X, r, c);
    }
    SameBoard(X, Y);
  }

  /** The cell (r, c) of line l after line l alone has been planned. */
  lemma PlannedCell(B: Board, d: Grouping, l: nat, X: Board, r: nat, c: nat)
    requires QuietBoard(B) && l < |B| && IsSquare(X) && |X| == |B| && r < |B| && c < |B|
    requires LineIndex(d, |B|, r, c) == l
    requires Quiet(LineAt(B, d, l)) && LineAt(X, d, l) == PlanLine(LineAt(B, d, l))
    ensures X[r][c] == PlanAll(B, d)[r][c]
  {
    var k := PosIndex(d, |B|, r, c);
    CoordOfIndex(d, |B|, r, c);
    assert X[r][c] == LineAt(X, d, l)[k];
  }

  /** The commit phase (script.js:77-79): every pending merge applied. */
  function CommitBoard(B: Board): (C: Board)
    requires WellFormedBoard(B)
    ensures |C| == |B| && IsSquare(C)
    ensures forall r, c :: 0 <= r < |B| && 0 <= c < |B| ==> C[r][c] == Commit(B[r][c])
  {
    seq(|B|, r requires 0 <= r < |B| => assert WellFormedLine(B[r]); CommitLine(B[r]))
  }

  /** slideTiles(grouping): plan every line, then commit. */
  function Move(B: Board, d: Grouping): Board
    requires QuietBoard(B)
  {
    CommitBoard(PlanAll(B, d))
  }

  /** No pending merge survives the commit pass. */
  lemma MoveIsQuiet(B: Board, d: Grouping)
    requires QuietBoard(B)
    ensures |Move(B, d)| == |B| && QuietBoard(Move(B, d))
  {
  }

  /** The number of merges a move performs. */
  function Merges(B: Board, d: Grouping): nat
    requires QuietBoard(B)
  {
    Total(PlanAll(B, d), Pending)
  }

  /** Lines never interact: line l of the moved board is line l moved on its own. */
  lemma MoveLineByLine(B: Board, d: Grouping, l: nat)
    requires QuietBoard(B) && l < |B|
    ensures Quiet(LineAt(B, d, l))
    ensures LineAt(Move(B, d), d, l) == MoveLine(LineAt(B, d, l))
  {
    QuietLine(B, d, l);
    var n := |B|;
    var M := Move(B, d);
    forall k | 0 <= k < n ensures LineAt(M, d, l)[k] == MoveLine(LineAt(B, d, l))[k] {
      var rc := Coord(d, n, l, k);
    }
  }

  /** canMove (script.js:129-131). */
  predicate CanMove(B: Board, d: Grouping)
    requires IsSquare(B)
  {
    exists l :: 0 <= l < |B| && CanMoveInGroup(LineAt(B, d, l))
  }

  /** When canMove(grouping) is false, slideTiles on that grouping leaves every
      cell as it was. */
  lemma IllegalMoveChangesNothing(B: Board, d: Grouping)
    requires QuietBoard(B) && !CanMove(B, d)
    ensures Move(B, d) == B
  {
    var n := |B|;
    var M := Move(B, d);
    forall r, c | 0 <= r < n && 0 <= c < n ensures M[r][c] == B[r][c] {
      var l, k := LineIndex(d, n, r, c), PosIndex(d, n, r, c);
      CoordOfIndex(d, n, r, c);
      MoveLineByLine(B, d, l);
      CanMoveInGroupIffRelocates(LineAt(B, d, l));
      assert LineAt(M, d, l)[k] == M[r][c];
    }
    SameBoard(M, B);
  }

  /** After a legal move some cell is empty. */
  lemma LegalMoveLeavesRoom(B: Board, d: Grouping)
    requires QuietBoard(B) && CanMove(B, d)
    ensures exists r, c :: 0 <= r < |B| && 0 <= c < |B| && IsEmpty(Move(B, d)[r][c])
  {
    var l :| 0 <= l < |B| && CanMoveInGroup(LineAt(B, d, l));
    MoveIsQuiet(B, d);
    MoveLineByLine(B, d, l);
    LegalMoveLeavesEmptyCell(LineAt(B, d, l));
    var k :| 0 <= k < |B| && IsEmpty(MoveLine(LineAt(B, d, l))[k]);
    var rc := Coord(d, |B|, l, k);
    assert IsEmpty(LineAt(Move(B, d), d, l)[k]);
  }

  /** A move is legal exactly when it changes the board. */
  lemma MoveChangesIffLegal(B: Board, d: Grouping)
    requires QuietBoard(B)
    ensures Move(B, d) != B <==> CanMove(B, d)
  {
    if CanMove(B, d) {
      var l :| 0 <= l < |B| && CanMoveInGroup(LineAt(B, d, l));
      MoveLineByLine(B, d, l);
      LegalMoveChangesLine(LineAt(B, d, l));
    } else {
      IllegalMoveChangesNothing(B, d);
    }
  }

  // ---------------------------------------------------------------------------
  // Totals over a board.

  function Total(B: Board, m: Metric): nat {
    if |B| == 0 then 0 else Total(B[..|B| - 1], m) + LineSum(B[|B| - 1], m)
  }

  lemma {:induction false} LineSumAppend(a: Line, b: Line, m: Metric)
    ensures LineSum(a + b, m) == LineSum(a, m) + LineSum(b, m)
    decreases |b|
  {
    if |b| > 0 {
      assert (a + b)[..|a + b| - 1] == a + b[..|b| - 1];
      LineSumAppend(a, b[..|b| - 1], m);
    } else {
      assert a + b == a;
    }
  }

  function Reverse(s: Line): (r: Line)
    ensures |r| == |s| && forall k :: 0 <= k < |s| ==> r[k] == s[|s| - 1 - k]
  {
    seq(|s|, k requires 0 <= k < |s| => s[|s| - 1 - k])
  }

  lemma {:induction false} LineSumReverse(s: Line, m: Metric)
    ensures LineSum(Reverse(s), m) == LineSum(s, m)
    decreases |s|
  {
    if |s| > 0 {
      var n := |s|;
      assert Reverse(s)[..n - 1] == Reverse(s[1..]);
      LineSumReverse(s[1..], m);
      assert s == [s[0]] + s[1..];
      LineSumAppend([s[0]], s[1..], m);
      assert [s[0]][..0] == [];
    }
  }

  /** Boards whose rows have equal sums have equal totals. */
  lemma {:induction false} TotalRowwise(X: Board, Y: Board, m: Metric)
    requires |X| == |Y| && forall r :: 0 <= r < |X| ==> LineSum(X[r], m) == LineSum(Y[r], m)
    ensures Total(X, m) == Total(Y, m)
    decreases |X|
  {
    if |X| > 0 {
      TotalRowwise(X[..|X| - 1], Y[..|Y| - 1], m);
    }
  }

  lemma {:induction false} TotalUpdateRow(B: Board, r: nat, row: Line, m: Metric)
    requires r < |B|
    ensures Total(B[r := row], m) == Total(B, m) - LineSum(B[r], m) + LineSum(row, m)
    decreases |B|
  {
    var n := |B|;
    if r == n - 1 {
      assert B[r := row][..n - 1] == B[..n - 1];
    } else {
      assert B[r := row][..n - 1] == B[..n - 1][r := row];
      TotalUpdateRow(B[..n - 1], r, row, m);
    }
  }

  /** Changing one cell changes the total by the difference of the weights. */
  lemma TotalUpdate(B: Board, r: nat, c: nat, x: Cell, m: Metric)
    requires r < |B| && c < |B[r]|
    ensures Total(B[r := B[r][c := x]], m) == Total(B, m) - Weight(m, B[r][c]) + Weight(m, x)
  {
    TotalUpdateRow(B, r, B[r][c := x], m);
    LineSumUpdate(B[r], c, x, m);
  }

  function Column(X: Board, c: nat): (col: Line)
    requires forall r :: 0 <= r < |X| ==> c < |X[r]|
    ensures |col| == |X| && forall r :: 0 <= r < |X| ==> col[r] == X[r][c]
  {
    seq(|X|, r requires 0 <= r < |X| => X[r][c])
  }

  /** The w columns of a board whose rows all have width w. */
  function Transpose(X: Board, w: nat): (T: Board)
    requires forall r :: 0 <= r < |X| ==> |X[r]| == w
    ensures |T| == w && forall c :: 0 <= c < w ==> T[c] == Column(X, c)
  {
    seq(w, c requires 0 <= c < w => Column(X, c))
  }

  function DropLastColumn(X: Board, w: nat): (Y: Board)
    requires w > 0 && forall r :: 0 <= r < |X| ==> |X[r]| == w
    ensures |Y| == |X| && forall r :: 0 <= r < |X| ==> Y[r] == X[r][..w - 1]
  {
    seq(|X|, r requires 0 <= r < |X| => X[r][..w - 1])
  }

  lemma {:induction false} TotalOfEmptyRows(X: Board, m: Metric)
    requires forall r :: 0 <= r < |X| ==> |X[r]| == 0
    ensures Total(X, m) == 0
    decreases |X|
  {
    if |X| > 0 {
      TotalOfEmptyRows(X[..|X| - 1], m);
    }
  }

  lemma {:induction false} TotalSplitLastColumn(X: Board, w: nat, m: Metric)
    requires w > 0 && forall r :: 0 <= r < |X| ==> |X[r]| == w
    ensures Total(X, m) == Total(DropLastColumn(X, w), m) + LineSum(Column(X, w - 1), m)
    decreases |X|
  {
    if |X| > 0 {
      var h := |X|;
      var X' := X[..h - 1];
      TotalSplitLastColumn(X', w, m);
      assert DropLastColumn(X', w) == DropLastColumn(X, w)[..h - 1];
      assert Column(X', w - 1) == Column(X, w - 1)[..h - 1];
    }
  }

  /** Summing by rows or by columns gives the same total. */
  lemma {:induction false} TotalTranspose(X: Board, w: nat, m: Metric)
    requires forall r :: 0 <= r < |X| ==> |X[r]| == w
    ensures Total(Transpose(X, w), m) == Total(X, m)
    decreases w
  {
    if w == 0 {
      TotalOfEmptyRows(X, m);
    } else {
      var T := Transpose(X, w);
      var Y := DropLastColumn(X, w);
      TotalTranspose(Y, w - 1, m);
      var TY, T' := Transpose(Y, w - 1), T[..w - 1];
      forall c | 0 <= c < w - 1 ensures TY[c] == T'[c] {
        assert forall r :: 0 <= r < |X| ==> Y[r][c] == X[r][c];
      }
      assert TY == T';
      TotalSplitLastColumn(X, w, m);
    }
  }

  function ReverseRows(X: Board): (Y: Board)
    ensures |Y| == |X| && forall r :: 0 <= r < |X| ==> Y[r] == Reverse(X[r])
  {
    seq(|X|, r requires 0 <= r < |X| => Reverse(X[r]))
  }

  lemma ByRowIsRows(Ls: Board)
    requires IsSquare(Ls)
    ensures FromLines(Ls, ByRow) == Ls
  {
    SameBoard(FromLines(Ls, ByRow), Ls);
  }

  lemma ByReversedRowIsReversedRows(Ls: Board)
    requires IsSquare(Ls)
    ensures FromLines(Ls, ByReversedRow) == ReverseRows(Ls)
  {
    SameBoard(FromLines(Ls, ByReversedRow), ReverseRows(Ls));
  }

  lemma ByColumnIsTranspose(Ls: Board)
    requires IsSquare(Ls)
    ensures FromLines(Ls, ByColumn) == Transpose(Ls, |Ls|)
  {
    SameBoard(FromLines(Ls, ByColumn), Transpose(Ls, |Ls|));
  }

  lemma ByReversedColumnIsTranspose(Ls: Board)
    requires IsSquare(Ls)
    ensures FromLines(Ls, ByReversedColumn) == Transpose(ReverseRows(Ls), |Ls|)
  {
    var n := |Ls|;
    var R := ReverseRows(Ls);
    forall r, c | 0 <= r < n && 0 <= c < n ensures FromLines(Ls, ByReversedColumn)[r][c] == Transpose(R, n)[r][c] {
      assert R[c][r] == Ls[c][n - 1 - r];
    }
    SameBoard(FromLines(Ls, ByReversedColumn), Transpose(R, n));
  }

  lemma TotalReverseRows(Ls: Board, m: Metric)
    ensures Total(ReverseRows(Ls), m) == Total(Ls, m)
  {
    var R := ReverseRows(Ls);
    forall r | 0 <= r < |Ls| ensures LineSum(R[r], m) == LineSum(Ls[r], m) {
      LineSumReverse(Ls[r], m);
    }
    TotalRowwise(R, Ls, m);
  }

  /** Each grouping lists every cell exactly once, so the total over its lines
      is the total over the board. */
  lemma TotalFromLines(Ls: Board, d: Grouping, m: Metric)
    requires IsSquare(Ls)
    ensures Total(FromLines(Ls, d), m) == Total(Ls, m)
  {
    match d
    case ByRow =>
      ByRowIsRows(Ls);
    case ByReversedRow =>
      ByReversedRowIsReversedRows(Ls);
      TotalReverseRows(Ls, m);
    case ByColumn =>
      ByColumnIsTranspose(Ls);
      TotalTranspose(Ls, |Ls|, m);
    case ByReversedColumn =>
      ByReversedColumnIsTranspose(Ls);
      TotalTranspose(ReverseRows(Ls), |Ls|, m);
      TotalReverseRows(Ls, m);
  }

  lemma {:induction false} CommitBoardTotals(X: Board)
    requires WellFormedBoard(X)
    ensures Total(CommitBoard(X), Value) == Total(X, Value)
    ensures Total(CommitBoard(X), Count) == Total(X, Count) - Total(X, Pending)
    ensures QuietBoard(CommitBoard(X))
    decreases |X|
  {
    var C := CommitBoard(X);
    forall r | 0 <= r < |X| ensures C[r] == CommitLine(X[r]) {
      assert WellFormedLine(X[r]);
    }
    CommitRowsTotals(X, C, |X|);
    assert C[..|X|] == C && X[..|X|] == X;
    forall r, c | 0 <= r < |X| && 0 <= c < |X| ensures C[r][c].mergeTile.None? {
      CommitCell(X[r][c]);
    }
  }

  lemma {:induction false} CommitRowsTotals(X: Board, C: Board, h: nat)
    requires WellFormedBoard(X) && |C| == |X| && h <= |X|
    requires forall r :: 0 <= r < |X| ==> WellFormedLine(X[r]) && C[r] == CommitLine(X[r])
    ensures Total(C[..h], Value) == Total(X[..h], Value)
    ensures Total(C[..h], Count) == Total(X[..h], Count) - Total(X[..h], Pending)
    decreases h
  {
    if h > 0 {
      CommitRowsTotals(X, C, h - 1);
      assert C[..h][..h - 1] == C[..h - 1];
      assert X[..h][..h - 1] == X[..h - 1];
      CommitLineSums(X[h - 1]);
    }
  }

  /** A move keeps the total of tile values; the tile count drops by exactly
      the number of merges; no pending merge survives the commit. */
  lemma MoveTotals(B: Board, d: Grouping)
    requires QuietBoard(B)
    ensures Total(Move(B, d), Value) == Total(B, Value)
    ensures Total(Move(B, d), Count) == Total(B, Count) - Merges(B, d)
    ensures QuietBoard(Move(B, d))
  {
    var PL := PlannedLines(B, d);
    var Ls := LinesOf(B, d);
    forall l | 0 <= l < |B|
      ensures LineSum(PL[l], Value) == LineSum(Ls[l], Value)
      ensures LineSum(PL[l], Count) == LineSum(Ls[l], Count)
    {
      PlanFromSums(LineAt(B, d, l), 1);
    }
    TotalRowwise(PL, Ls, Value);
    TotalRowwise(PL, Ls, Count);
    TotalFromLines(PL, d, Value);
    TotalFromLines(PL, d, Count);
    TotalFromLines(Ls, d, Value);
    TotalFromLines(Ls, d, Count);
    FromLinesOfLines(B, d);
    CommitBoardTotals(PlanAll(B, d));
  }

  // ---------------------------------------------------------------------------
  // The four legality tests, each characterised on grid coordinates.

  lemma UpAdjacency(B: Board)
    requires IsSquare(B)
    ensures CanMove(B, ByColumn) <==> exists r, c :: 0 < r < |B| && 0 <= c < |B| && B[r][c].tile.Some? &&
                                                     CanAccept(B[r - 1][c], B[r][c].tile.value)
  {
    UpAdjacencyFrom(B);
    if exists r, c :: 0 < r < |B| && 0 <= c < |B| && B[r][c].tile.Some? && CanAccept(B[r - 1][c], B[r][c].tile.value) {
      var r: nat, c: nat :| 0 < r < |B| && 0 <= c < |B| && B[r][c].tile.Some? && CanAccept(B[r - 1][c], B[r][c].tile.value);
      UpAdjacencyTo(B, r, c);
    }
  }

  /** A movable index of a line gives a tile with an accepting cell above it. */
  lemma UpAdjacencyFrom(B: Board)
    requires IsSquare(B)
    ensures CanMove(B, ByColumn) ==> exists r, c :: 0 < r < |B| && 0 <= c < |B| && B[r][c].tile.Some? && CanAccept(B[r - 1][c], B[r][c].tile.value)
  {
    var n := |B|;
    if CanMove(B, ByColumn) {
      var l :| 0 <= l < n && CanMoveInGroup(LineAt(B, ByColumn, l));
      var k :| 0 < k < n && Movable(LineAt(B, ByColumn, l), k);
      assert LineAt(B, ByColumn, l)[k] == B[k][l] && LineAt(B, ByColumn, l)[k - 1] == B[k - 1][l];
    }
  }

  /** A tile at (r, c) with an accepting cell above it makes its line movable. */
  lemma UpAdjacencyTo(B: Board, r: nat, c: nat)
    requires IsSquare(B) && 0 < r < |B| && 0 <= c < |B| && B[r][c].tile.Some? && CanAccept(B[r - 1][c], B[r][c].tile.value)
    ensures CanMove(B, ByColumn)
  {
    var n := |B|;
    assert LineAt(B, ByColumn, c)[r] == B[r][c] && LineAt(B, ByColumn, c)[r - 1] == B[r - 1][c];
    assert Movable(LineAt(B, ByColumn, c), r);
  }

  lemma DownAdjacency(B: Board)
    requires IsSquare(B)
    ensures CanMove(B, ByReversedColumn) <==> exists r, c :: 0 <= r < |B| - 1 && 0 <= c < |B| && B[r][c].tile.Some? &&
                                                             CanAccept(B[r + 1][c], B[r][c].tile.value)
  {
    DownAdjacencyFrom(B);
    if exists r, c :: 0 <= r < |B| - 1 && 0 <= c < |B| && B[r][c].tile.Some? && CanAccept(B[r + 1][c], B[r][c].tile.value) {
      var r: nat, c: nat :| 0 <= r < |B| - 1 && 0 <= c < |B| && B[r][c].tile.Some? && CanAccept(B[r + 1][c], B[r][c].tile.value);
      DownAdjacencyTo(B, r, c);
    }
  }

  /** A movable index of a line gives a tile with an accepting cell below it. */
  lemma DownAdjacencyFrom(B: Board)
    requires IsSquare(B)
    ensures CanMove(B, ByReversedColumn) ==> exists r, c :: 0 <= r < |B| - 1 && 0 <= c < |B| && B[r][c].tile.Some? && CanAccept(B[r + 1][c], B[r][c].tile.value)
  {
    var n := |B|;
    if CanMove(B, ByReversedColumn) {
      var l :| 0 <= l < n && CanMoveInGroup(LineAt(B, ByReversedColumn, l));
      var L := LineAt(B, ByReversedColumn, l);
      var k :| 0 < k < n && Movable(L, k);
      var r := n - 1 - k;
      assert L[k] == B[r][l] && L[k - 1] == B[r + 1][l];
      assert B[r][l].tile.Some? && CanAccept(B[r + 1][l], B[r][l].tile.value);
    }
  }

  /** A tile at (r, c) with an accepting cell below it makes its line movable. */
  lemma DownAdjacencyTo(B: Board, r: nat, c: nat)
    requires IsSquare(B) && 0 <= r < |B| - 1 && 0 <= c < |B| && B[r][c].tile.Some? && CanAccept(B[r + 1][c], B[r][c].tile.value)
    ensures CanMove(B, ByReversedColumn)
  {
    var n := |B|;
    var L := LineAt(B, ByReversedColumn, c);
    var k := n - 1 - r;
    assert Coord(ByReversedColumn, n, c, k) == (r, c) && Coord(ByReversedColumn, n, c, k - 1) == (r + 1, c);
    assert L[k] == B[r][c] && L[k - 1] == B[r + 1][c];
    assert Movable(L, k);
  }

  lemma LeftAdjacency(B: Board)
    requires IsSquare(B)
    ensures CanMove(B, ByRow) <==> exists r, c :: 0 <= r < |B| && 0 < c < |B| && B[r][c].tile.Some? &&
                                                  CanAccept(B[r][c - 1], B[r][c].tile.value)
  {
    LeftAdjacencyFrom(B);
    if exists r, c :: 0 <= r < |B| && 0 < c < |B| && B[r][c].tile.Some? && CanAccept(B[r][c - 1], B[r][c].tile.value) {
      var r: nat, c: nat :| 0 <= r < |B| && 0 < c < |B| && B[r][c].tile.Some? && CanAccept(B[r][c - 1], B[r][c].tile.value);
      LeftAdjacencyTo(B, r, c);
    }
  }

  /** A movable index of a line gives a tile with an accepting cell to the left of it. */
  lemma LeftAdjacencyFrom(B: Board)
    requires IsSquare(B)
    ensures CanMove(B, ByRow) ==> exists r, c :: 0 <= r < |B| && 0 < c < |B| && B[r][c].tile.Some? && CanAccept(B[r][c - 1], B[r][c].tile.value)
  {
    var n := |B|;
    if CanMove(B, ByRow) {
      var l :| 0 <= l < n && CanMoveInGroup(LineAt(B, ByRow, l));
      var k :| 0 < k < n && Movable(LineAt(B, ByRow, l), k);
      assert LineAt(B, ByRow, l)[k] == B[l][k] && LineAt(B, ByRow, l)[k - 1] == B[l][k - 1];
    }
  }

  /** A tile at (r, c) with an accepting cell to the left of it makes its line movable. */
  lemma LeftAdjacencyTo(B: Board, r: nat, c: nat)
    requires IsSquare(B) && 0 <= r < |B| && 0 < c < |B| && B[r][c].tile.Some? && CanAccept(B[r][c - 1], B[r][c].tile.value)
    ensures CanMove(B, ByRow)
  {
    var n := |B|;
    assert LineAt(B, ByRow, r)[c] == B[r][c] && LineAt(B, ByRow, r)[c - 1] == B[r][c - 1];
    assert Movable(LineAt(B, ByRow, r), c);
  }

  lemma RightAdjacency(B: Board)
    requires IsSquare(B)
    ensures CanMove(B, ByReversedRow) <==> exists r, c :: 0 <= r < |B| && 0 <= c < |B| - 1 && B[r][c].tile.Some? &&
                                                          CanAccept(B[r][c + 1], B[r][c].tile.value)
  {
    RightAdjacencyFrom(B);
    if exists r, c :: 0 <= r < |B| && 0 <= c < |B| - 1 && B[r][c].tile.Some? && CanAccept(B[r][c + 1], B[r][c].tile.value) {
      var r: nat, c: nat :| 0 <= r < |B| && 0 <= c < |B| - 1 && B[r][c].tile.Some? && CanAccept(B[r][c + 1], B[r][c].tile.value);
      RightAdjacencyTo(B, r, c);
    }
  }

  /** A movable index of a line gives a tile with an accepting cell to the right of it. */
  lemma RightAdjacencyFrom(B: Board)
    requires IsSquare(B)
    ensures CanMove(B, ByReversedRow) ==> exists r, c :: 0 <= r < |B| && 0 <= c < |B| - 1 && B[r][c].tile.Some? && CanAccept(B[r][c + 1], B[r][c].tile.value)
  {
    var n := |B|;
    if CanMove(B, ByReversedRow) {
      var l :| 0 <= l < n && CanMoveInGroup(LineAt(B, ByReversedRow, l));
      var L := LineAt(B, ByReversedRow, l);
      var k :| 0 < k < n && Movable(L, k);
      var c := n - 1 - k;
      assert L[k] == B[l][c] && L[k - 1] == B[l][c + 1];
      assert B[l][c].tile.Some? && CanAccept(B[l][c + 1], B[l][c].tile.value);
    }
  }

  /** A tile at (r, c) with an accepting cell to the right of it makes its line movable. */
  lemma RightAdjacencyTo(B: Board, r: nat, c: nat)
    requires IsSquare(B) && 0 <= r < |B| && 0 <= c < |B| - 1 && B[r][c].tile.Some? && CanAccept(B[r][c + 1], B[r][c].tile.value)
    ensures CanMove(B, ByReversedRow)
  {
    var n := |B|;
    var L := LineAt(B, ByReversedRow, r);
    var k := n - 1 - c;
    assert Coord(ByReversedRow, n, r, k) == (r, c) && Coord(ByReversedRow, n, r, k - 1) == (r, c + 1);
    assert L[k] == B[r][c] && L[k - 1] == B[r][c + 1];
    assert Movable(L, k);
  }

  /** canMoveUp (script.js:113-115): some tile has an accepting cell directly above it. */
  function CanMoveUp(B: Board): (b: bool)
    requires IsSquare(B)
    ensures b <==> exists r, c :: 0 < r < |B| && 0 <= c < |B| && B[r][c].tile.Some? &&
                                  CanAccept(B[r - 1][c], B[r][c].tile.value)
  {
    UpAdjacency(B);
    CanMove(B, ByColumn)
  }

  /** canMoveDown (script.js:117-119): some tile has an accepting cell directly below it. */
  function CanMoveDown(B: Board): (b: bool)
    requires IsSquare(B)
    ensures b <==> exists r, c :: 0 <= r < |B| - 1 && 0 <= c < |B| && B[r][c].tile.Some? &&
                                  CanAccept(B[r + 1][c], B[r][c].tile.value)
  {
    DownAdjacency(B);
    CanMove(B, ByReversedColumn)
  }

  /** canMoveLeft (script.js:121-123): some tile has an accepting cell directly to its left. */
  function CanMoveLeft(B: Board): (b: bool)
    requires IsSquare(B)
    ensures b <==> exists r, c :: 0 <= r < |B| && 0 < c < |B| && B[r][c].tile.Some? &&
                                  CanAccept(B[r][c - 1], B[r][c].tile.value)
  {
    LeftAdjacency(B);
    CanMove(B, ByRow)
  }

  /** canMoveRight (script.js:125-127): some tile has an accepting cell directly to its right. */
  function CanMoveRight(B: Board): (b: bool)
    requires IsSquare(B)
    ensures b <==> exists r, c :: 0 <= r < |B| && 0 <= c < |B| - 1 && B[r][c].tile.Some? &&
                                  CanAccept(B[r][c + 1], B[r][c].tile.value)
  {
    RightAdjacency(B);
    CanMove(B, ByReversedRow)
  }

  /** No direction can move: the terminal test of script.js:242. */
  predicate NoMovesLeft(B: Board)
    requires IsSquare(B)
  {
    !CanMoveUp(B) && !CanMoveDown(B) && !CanMoveLeft(B) && !CanMoveRight(B)
  }

  /** With no move left, every grouping leaves the board as it is, so nothing
      escapes the end of the game but a restart. */
  lemma StuckBoardIsFixed(B: Board, d: Grouping)
    requires QuietBoard(B) && NoMovesLeft(B)
    ensures Move(B, d) == B && NoMovesLeft(Move(B, d))
  {
    IllegalMoveChangesNothing(B, d);
  }

  // ---------------------------------------------------------------------------
  // Empty cells and the spawn.

  function EmptyInRow(B: Board, r: nat, c: nat): (s: seq<(nat, nat)>)
    requires r < |B| && c <= |B[r]|
    ensures forall p :: p in s <==> p.0 == r && c <= p.1 < |B[r]| && IsEmpty(B[r][p.1])
    decreases |B[r]| - c
  {
    if c == |B[r]| then []
    else (if IsEmpty(B[r][c]) then [(r, c)] else []) + EmptyInRow(B, r, c + 1)
  }

  function EmptyCellsFrom(B: Board, r: nat): (s: seq<(nat, nat)>)
    requires IsSquare(B) && r <= |B|
    ensures forall p :: p in s <==> r <= p.0 < |B| && p.1 < |B| && IsEmpty(B[p.0][p.1])
    decreases |B| - r
  {
    if r == |B| then [] else EmptyInRow(B, r, 0) + EmptyCellsFrom(B, r + 1)
  }

  /** The empty-cell filter behind getRandomEmptyCell (script.js:24, 240):
      the coordinates of all empty cells. Listing them in row-major order is a
      choice of this model; only membership matters to the spawn's contract. */
  function EmptyCells(B: Board): (s: seq<(nat, nat)>)
    requires IsSquare(B)
    ensures forall p :: p in s <==> p.0 < |B| && p.1 < |B| && IsEmpty(B[p.0][p.1])
  {
    EmptyCellsFrom(B, 0)
  }

  /** grid.getRandomEmptyCell().linkTile(new Tile()) (script.js:239-240): the
      random choice is the parameter `pick`, the new tile's value `v`. */
  function SpawnAt(B: Board, pick: nat, v: nat): (S: Board)
    requires IsSquare(B) && |EmptyCells(B)| > 0
  {
    var p := EmptyCells(B)[pick % |EmptyCells(B)|];
    B[p.0 := B[p.0][p.1 := LinkTile(B[p.0][p.1], v)]]
  }

  /** The spawn fills exactly one previously empty cell, the one `pick`
      selects from EmptyCells, with a tile of value v, adds exactly one tile and v to the total, and changes nothing else. */
  lemma SpawnEffect(B: Board, pick: nat, v: nat)
    requires QuietBoard(B) && |EmptyCells(B)| > 0
    ensures
      var S := SpawnAt(B, pick, v);
      && |S| == |B| && QuietBoard(S)
      && (exists r, c :: 0 <= r < |B| && 0 <= c < |B| && (r, c) == EmptyCells(B)[pick % |EmptyCells(B)|] &&
            IsEmpty(B[r][c]) && S[r][c] == Cell(Some(v), None) &&
            forall r', c' :: 0 <= r' < |B| && 0 <= c' < |B| && (r', c') != (r, c) ==> S[r'][c'] == B[r'][c'])
      && Total(S, Count) == Total(B, Count) + 1
      && Total(S, Value) == Total(B, Value) + v
  {
    var p := EmptyCells(B)[pick % |EmptyCells(B)|];
    assert p in EmptyCells(B);
    TotalUpdate(B, p.0, p.1, LinkTile(B[p.0][p.1], v), Count);
    TotalUpdate(B, p.0, p.1, LinkTile(B[p.0][p.1], v), Value);
  }

  lemma EmptyCellListed(M: Board)
    requires IsSquare(M)
    requires exists r, c :: 0 <= r < |M| && 0 <= c < |M| && IsEmpty(M[r][c])
    ensures |EmptyCells(M)| > 0
  {
    var r, c :| 0 <= r < |M| && 0 <= c < |M| && IsEmpty(M[r][c]);
    assert (r, c) in EmptyCells(M);
  }

  /** There is room for a spawn after every legal move. */
  lemma SpawnAfterLegalMove(B: Board, d: Grouping)
    requires QuietBoard(B) && CanMove(B, d)
    ensures QuietBoard(Move(B, d)) && |EmptyCells(Move(B, d))| > 0
  {
    MoveTotals(B, d);
    LegalMoveLeavesRoom(B, d);
    EmptyCellListed(Move(B, d));
  }

  /** One accepted turn on the board: the move, then the spawn. There is
      always room for the spawn; the total value grows by the new tile's value
      and the tile count by one less the number of merges. */
  function Turn(B: Board, d: Grouping, pick: nat, v: nat): (T: Board)
    requires QuietBoard(B) && CanMove(B, d)
    ensures |T| == |B| && QuietBoard(T)
    ensures Total(T, Value) == Total(B, Value) + v
    ensures Total(T, Count) == Total(B, Count) - Merges(B, d) + 1
  {
    SpawnAfterLegalMove(B, d);
    MoveTotals(B, d);
    SpawnEffect(Move(B, d), pick, v);
    SpawnAt(Move(B, d), pick, v)
  }

  lemma StartRoom(n: nat, pick: nat, v: nat)
    requires n >= 2
    ensures |EmptyCells(EmptyBoard(n))| > 0
    ensures |EmptyCells(SpawnAt(EmptyBoard(n), pick, v))| > 0
  {
    var E := EmptyBoard(n);
    assert (0, 0) in EmptyCells(E);
    SpawnEffect(E, pick, v);
    var S := SpawnAt(E, pick, v);
    var q := if IsEmpty(S[0][0]) then (0, 0) else (0, 1);
    assert q in EmptyCells(S);
  }

  lemma {:induction false} EmptyBoardTotals(n: nat, h: nat)
    requires h <= n
    ensures Total(EmptyBoard(n)[..h], Count) == 0 && Total(EmptyBoard(n)[..h], Value) == 0
    decreases h
  {
    if h > 0 {
      var E := EmptyBoard(n);
      EmptyBoardTotals(n, h - 1);
      assert E[..h][..h - 1] == E[..h - 1];
      EmptyLineSums(E[h - 1]);
    }
  }

  lemma {:induction false} EmptyLineSums(L: Line)
    requires forall k :: 0 <= k < |L| ==> L[k] == EmptyCell
    ensures LineSum(L, Count) == 0 && LineSum(L, Value) == 0
    decreases |L|
  {
    if |L| > 0 {
      EmptyLineSums(L[..|L| - 1]);
    }
  }

  /** The grid startGame builds (script.js:21-25): a fresh grid with two
      spawned tiles. */
  function StartBoard(n: nat, pick1: nat, v1: nat, pick2: nat, v2: nat): (B: Board)
    requires n >= 2
    ensures |B| == n && QuietBoard(B)
    ensures Total(B, Count) == 2 && Total(B, Value) == v1 + v2
  {
    StartRoom(n, pick1, v1);
    EmptyBoardTotals(n, n);
    assert EmptyBoard(n)[..n] == EmptyBoard(n);
    SpawnEffect(EmptyBoard(n), pick1, v1);
    SpawnEffect(SpawnAt(EmptyBoard(n), pick1, v1), pick2, v2);
    SpawnAt(SpawnAt(EmptyBoard(n), pick1, v1), pick2, v2)
  }
}
