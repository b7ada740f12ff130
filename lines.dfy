/** One line of the grid (a row or a column), ordered from the target edge
    outward, and the per-line planning pass of slideTilesInGroup
    (script.js:82-111) as a specification on values. */
module Lines {
  import opened Cells

  type Line = seq<Cell>

  predicate WellFormedLine(L: Line) {
    forall k :: 0 <= k < |L| ==> WellFormed(L[k])
  }

  /** No cell at index i or beyond holds a pending merge. */
  predicate NoPendingFrom(L: Line, i: nat) {
    forall k :: i <= k < |L| ==> L[k].mergeTile.None?
  }

  /** The state of every line between turns. */
  predicate Quiet(L: Line) {
    NoPendingFrom(L, 0)
  }

  /** The backward scan of script.js:91-95: the lowest index t such that every
      cell in [t, j) accepts a tile of value v. */
  function RunStart(L: Line, v: nat, j: nat): (t: nat)
    requires j <= |L|
    ensures t <= j
    ensures forall k :: t <= k < j ==> CanAccept(L[k], v)
    ensures t == 0 || !CanAccept(L[t - 1], v)
    decreases j
  {
    if j == 0 || !CanAccept(L[j - 1], v) then j else RunStart(L, v, j - 1)
  }

  /** The test of canMoveInGroup for one index (script.js:134-145). */
  predicate Movable(L: Line, k: nat)
    requires 0 < k < |L|
  {
    L[k].tile.Some? && CanAccept(L[k - 1], L[k].tile.value)
  }

  /** canMoveInGroup (script.js:133-146). */
  predicate CanMoveInGroup(L: Line) {
    exists k :: 0 < k < |L| && Movable(L, k)
  }

  /** One iteration of the outer loop of slideTilesInGroup (script.js:84-109). */
  function Step(L: Line, i: nat): (r: Line)
    requires 0 < i < |L| && WellFormedLine(L) && NoPendingFrom(L, i)
    ensures |r| == |L| && WellFormedLine(r) && NoPendingFrom(r, i + 1)
    ensures forall k :: i < k < |L| ==> r[k] == L[k]
  {
    if IsEmpty(L[i]) then L
    else
      var v := L[i].tile.value;
      var t := RunStart(L, v, i);
      if t == i then L
      else if IsEmpty(L[t]) then L[t := LinkTile(L[t], v)][i := UnlinkTile(L[i])]
      else L[t := LinkTileForMerge(L[t], v)][i := UnlinkTile(L[i])]
  }

  /** The iterations i, i+1, ..., |L|-1 of the outer loop. */
  function PlanFrom(L: Line, i: nat): (r: Line)
    requires 1 <= i && WellFormedLine(L) && NoPendingFrom(L, i)
    ensures |r| == |L| && WellFormedLine(r)
    decreases |L| - i
  {
    if i >= |L| then L else PlanFrom(Step(L, i), i + 1)
  }

  /** slideTilesInGroup on a line with no pending merge. */
  function PlanLine(L: Line): (r: Line)
    requires Quiet(L)
    ensures |r| == |L| && WellFormedLine(r)
  {
    PlanFrom(L, 1)
  }

  /** How many tiles iterations i.. relocate: the number of promises pushed at
      script.js:101. */
  function RelocationsFrom(L: Line, i: nat): nat
    requires 1 <= i && WellFormedLine(L) && NoPendingFrom(L, i)
    decreases |L| - i
  {
    if i >= |L| then 0 else (if Movable(L, i) then 1 else 0) + RelocationsFrom(Step(L, i), i + 1)
  }

  function Relocations(L: Line): nat
    requires Quiet(L)
  {
    RelocationsFrom(L, 1)
  }

  /** The commit pass of script.js:77-79 restricted to one line. */
  function CommitLine(L: Line): (r: Line)
    requires WellFormedLine(L)
    ensures |r| == |L|
    ensures forall k :: 0 <= k < |L| ==> r[k] == Commit(L[k])
  {
    seq(|L|, k requires 0 <= k < |L| => Commit(L[k]))
  }

  /** The whole move restricted to one line: plan, then commit. */
  function MoveLine(L: Line): Line
    requires Quiet(L)
  {
    CommitLine(PlanLine(L))
  }

  function LineSum(L: Line, m: Metric): nat {
    if |L| == 0 then 0 else LineSum(L[..|L| - 1], m) + Weight(m, L[|L| - 1])
  }

  // ---------------------------------------------------------------------------
  // What one iteration does.

  /** An empty cell is skipped and a tile whose predecessor rejects it stays
      put; otherwise the tile goes to the farthest cell of the contiguous run
      of acceptors below it, as a settled tile when that cell was empty and as
      a pending merge when it was not, and its source cell is left empty.
      Nothing else changes. */
  lemma StepEffect(L: Line, i: nat)
    requires 0 < i < |L| && WellFormedLine(L) && NoPendingFrom(L, i)
    ensures !Movable(L, i) ==> Step(L, i) == L
    ensures Movable(L, i) ==>
      var v, t, r := L[i].tile.value, RunStart(L, L[i].tile.value, i), Step(L, i);
      && t < i
      && (forall k :: t <= k < i ==> CanAccept(L[k], v))
      && (t == 0 || !CanAccept(L[t - 1], v))
      && IsEmpty(r[i]) && !HasTileForMerge(r[i])
      && (IsEmpty(L[t]) ==> r[t] == Cell(Some(v), None))
      && (!IsEmpty(L[t]) ==> r[t] == Cell(L[t].tile, Some(v)) && L[t].tile == Some(v))
      && (forall k :: 0 <= k < |L| && k != t && k != i ==> r[k] == L[k])
  {
  }

  lemma LineSumUpdate(L: Line, k: nat, x: Cell, m: Metric)
    requires k < |L|
    ensures LineSum(L[k := x], m) == LineSum(L, m) - Weight(m, L[k]) + Weight(m, x)
    decreases |L|
  {
    var n := |L|;
    if k == n - 1 {
      assert L[k := x][..n - 1] == L[..n - 1];
    } else {
      assert L[k := x][..n - 1] == L[..n - 1][k := x];
      LineSumUpdate(L[..n - 1], k, x, m);
    }
  }

  /** An iteration keeps the total value and the tile count, and adds one
      pending merge exactly when it parks a tile for a merge. */
  lemma StepSums(L: Line, i: nat)
    requires 0 < i < |L| && WellFormedLine(L) && NoPendingFrom(L, i)
    ensures LineSum(Step(L, i), Value) == LineSum(L, Value)
    ensures LineSum(Step(L, i), Count) == LineSum(L, Count)
    ensures LineSum(Step(L, i), Pending) ==
      LineSum(L, Pending) + (if Movable(L, i) && !IsEmpty(L[RunStart(L, L[i].tile.value, i)]) then 1 else 0)
  {
    StepEffect(L, i);
    if Movable(L, i) {
      StepSumMoved(L, i, Value);
      StepSumMoved(L, i, Count);
      StepSumMoved(L, i, Pending);
    }
  }

  /** A relocation changes a sum only at the two cells it rewrites. */
  lemma StepSumMoved(L: Line, i: nat, m: Metric)
    requires 0 < i < |L| && WellFormedLine(L) && NoPendingFrom(L, i) && Movable(L, i)
    ensures
      var v := L[i].tile.value;
      var t := RunStart(L, v, i);
      var x := if IsEmpty(L[t]) then LinkTile(L[t], v) else LinkTileForMerge(L[t], v);
      LineSum(Step(L, i), m) == LineSum(L, m) - Weight(m, L[t]) + Weight(m, x) - Weight(m, L[i]) + Weight(m, UnlinkTile(L[i]))
  {
    var v := L[i].tile.value;
    var t := RunStart(L, v, i);
    var x := if IsEmpty(L[t]) then LinkTile(L[t], v) else LinkTileForMerge(L[t], v);
    var L1 := L[t := x];
    assert Step(L, i) == L1[i := UnlinkTile(L[i])];
    LineSumUpdate(L, t, x, m);
    LineSumUpdate(L1, i, UnlinkTile(L[i]), m);
  }

  /** The line after the iterations 1, ..., i-1 of the outer loop on L0. */
  function PlanPrefix(L0: Line, i: nat): (P: Line)
    requires Quiet(L0) && 1 <= i <= |L0|
    ensures |P| == |L0| && WellFormedLine(P) && NoPendingFrom(P, i)
    decreases i
  {
    if i == 1 then L0 else Step(PlanPrefix(L0, i - 1), i - 1)
  }

  /** How many tiles the iterations 1, ..., i-1 relocate. */
  function PrefixRelocations(L0: Line, i: nat): nat
    requires Quiet(L0) && 1 <= i <= |L0|
    decreases i
  {
    if i == 1 then 0
    else PrefixRelocations(L0, i - 1) + if Movable(PlanPrefix(L0, i - 1), i - 1) then 1 else 0
  }

  /** The iterations before i followed by the iterations from i are the whole
      pass: after the last one the line is planned and every relocation is
      counted. */
  lemma {:induction false} PlanPrefixFinishes(L0: Line, i: nat)
    requires Quiet(L0) && 1 <= i <= |L0|
    ensures PlanFrom(PlanPrefix(L0, i), i) == PlanLine(L0)
    ensures PrefixRelocations(L0, i) + RelocationsFrom(PlanPrefix(L0, i), i) == Relocations(L0)
    decreases i
  {
    if i > 1 {
      PlanPrefixFinishes(L0, i - 1);
      var q := PlanPrefix(L0, i - 1);
      assert PlanFrom(q, i - 1) == PlanFrom(Step(q, i - 1), i);
    }
  }

  /** After the last iteration the line is planned and every relocation is
      counted. */
  lemma PlanPrefixComplete(L0: Line)
    requires Quiet(L0) && 1 <= |L0|
    ensures PlanPrefix(L0, |L0|) == PlanLine(L0) && PrefixRelocations(L0, |L0|) == Relocations(L0)
  {
    PlanPrefixFinishes(L0, |L0|);
  }

  // ---------------------------------------------------------------------------
  // Legality agrees with the planner.

  /** Iterations i.. relocate a tile iff some index from i on is movable, and
      when none is, they change nothing. */
  lemma {:induction false} RelocationsIffMovable(L: Line, i: nat)
    requires 1 <= i && WellFormedLine(L) && NoPendingFrom(L, i)
    ensures RelocationsFrom(L, i) > 0 <==> exists k :: i <= k < |L| && Movable(L, k)
    ensures RelocationsFrom(L, i) == 0 ==> PlanFrom(L, i) == L
    decreases |L| - i
  {
    if i < |L| && !Movable(L, i) {
      StepEffect(L, i);
      RelocationsIffMovable(L, i + 1);
      if exists k :: i <= k < |L| && Movable(L, k) {
        var k :| i <= k < |L| && Movable(L, k);
        assert i + 1 <= k;
      }
    }
  }

  /** canMoveInGroup(line) holds iff slideTilesInGroup relocates at least one
      tile of it; when it does not hold, planning and commit leave the line as
      it was. */
  lemma CanMoveInGroupIffRelocates(L: Line)
    requires Quiet(L)
    ensures CanMoveInGroup(L) <==> Relocations(L) > 0
    ensures !CanMoveInGroup(L) ==> PlanLine(L) == L && MoveLine(L) == L
  {
    RelocationsIffMovable(L, 1);
    if !CanMoveInGroup(L) {
      assert CommitLine(L) == L;
    }
  }

  // ---------------------------------------------------------------------------
  // Tiles the scan has passed stay where they are.

  /** A settled tile below the current index keeps its cell and its value for
      the rest of the planning pass. */
  lemma {:induction false} PassedTileStays(L: Line, i: nat, k: nat)
    requires 1 <= i && WellFormedLine(L) && NoPendingFrom(L, i)
    requires k < i && k < |L| && L[k].tile.Some?
    ensures PlanFrom(L, i)[k].tile == L[k].tile
    decreases |L| - i
  {
    if i < |L| {
      StepEffect(L, i);
      PassedTileStays(Step(L, i), i + 1, k);
    }
  }

  /** The cell at index 0 never loses its tile during planning. */
  lemma HeadKeepsTile(L: Line)
    requires Quiet(L) && |L| > 0 && L[0].tile.Some?
    ensures PlanLine(L)[0].tile == L[0].tile
  {
    PassedTileStays(L, 1, 0);
  }

  // ---------------------------------------------------------------------------
  // The planned prefix is stable; a tile merges with at most one tile.

  /** No tile in the prefix [0, i) could still move. */
  predicate SettledBelow(L: Line, i: nat) {
    forall k :: 0 < k < i && k < |L| ==> !Movable(L, k)
  }

  /** Over a stable prefix, the run a tile scans consists of empty cells except
      possibly its last cell: a tile slides through empties and meets at most
      one occupied cell. */
  lemma RunInteriorEmpty(L: Line, i: nat)
    requires 0 < i < |L| && SettledBelow(L, i) && L[i].tile.Some?
    ensures forall k :: RunStart(L, L[i].tile.value, i) < k < i ==> IsEmpty(L[k])
  {
    var v := L[i].tile.value;
    var t := RunStart(L, v, i);
    forall k | t < k < i ensures IsEmpty(L[k]) {
      assert CanAccept(L[k], v) && CanAccept(L[k - 1], v);
      assert !Movable(L, k);
    }
  }

  lemma StepKeepsSettled(L: Line, i: nat)
    requires 0 < i < |L| && WellFormedLine(L) && NoPendingFrom(L, i) && SettledBelow(L, i)
    ensures SettledBelow(Step(L, i), i + 1)
  {
    StepEffect(L, i);
    var r := Step(L, i);
    if Movable(L, i) {
      var v := L[i].tile.value;
      var t := RunStart(L, v, i);
      RunInteriorEmpty(L, i);
      forall k | 0 < k < i + 1 && k < |r| ensures !Movable(r, k) {
        if k == t {
          assert r[k - 1] == L[k - 1];
          if !IsEmpty(L[t]) {
            assert !Movable(L, t);
          }
        } else if t < k {
          assert IsEmpty(r[k]);
        } else {
          assert r[k] == L[k] && r[k - 1] == L[k - 1];
          assert !Movable(L, k);
        }
      }
    }
  }

  lemma {:induction false} PlanFromSettles(L: Line, i: nat)
    requires 1 <= i && WellFormedLine(L) && NoPendingFrom(L, i) && SettledBelow(L, i)
    ensures SettledBelow(PlanFrom(L, i), |L|)
    decreases |L| - i
  {
    if i < |L| {
      StepKeepsSettled(L, i);
      PlanFromSettles(Step(L, i), i + 1);
    }
  }

  /** Before the commit no tile of the planned line could move any further:
      the pass reaches a fixed point in one sweep. */
  lemma PlannedLineIsStable(L: Line)
    requires Quiet(L)
    ensures !CanMoveInGroup(PlanLine(L))
  {
    PlanFromSettles(L, 1);
  }

  // ---------------------------------------------------------------------------
  // Conservation, merge count and the room left for a spawn.

  lemma {:induction false} PlanFromSums(L: Line, i: nat)
    requires 1 <= i && WellFormedLine(L) && NoPendingFrom(L, i)
    ensures LineSum(PlanFrom(L, i), Value) == LineSum(L, Value)
    ensures LineSum(PlanFrom(L, i), Count) == LineSum(L, Count)
    ensures LineSum(PlanFrom(L, i), Pending) >= LineSum(L, Pending)
    decreases |L| - i
  {
    if i < |L| {
      StepSums(L, i);
      PlanFromSums(Step(L, i), i + 1);
    }
  }

  lemma {:induction false} CommitLineSums(L: Line)
    requires WellFormedLine(L)
    ensures LineSum(CommitLine(L), Value) == LineSum(L, Value)
    ensures LineSum(CommitLine(L), Count) == LineSum(L, Count) - LineSum(L, Pending)
    ensures Quiet(CommitLine(L))
    decreases |L|
  {
    if |L| > 0 {
      var n := |L|;
      assert CommitLine(L)[..n - 1] == CommitLine(L[..n - 1]);
      CommitLineSums(L[..n - 1]);
      CommitCell(L[n - 1]);
    }
  }

  /** Planning and commit keep the total of tile values; the tile count drops
      by exactly the number of merges the plan set up. */
  lemma MoveLineSums(L: Line)
    requires Quiet(L)
    ensures LineSum(MoveLine(L), Value) == LineSum(L, Value)
    ensures LineSum(MoveLine(L), Count) == LineSum(L, Count) - LineSum(PlanLine(L), Pending)
    ensures Quiet(MoveLine(L))
  {
    PlanFromSums(L, 1);
    CommitLineSums(PlanLine(L));
  }

  lemma {:induction false} PendingAtMostHalf(L: Line)
    requires WellFormedLine(L)
    ensures 2 * LineSum(L, Pending) <= LineSum(L, Count)
    decreases |L|
  {
    if |L| > 0 {
      PendingAtMostHalf(L[..|L| - 1]);
    }
  }

  /** With no pending merge, every cell holds at most one tile: the count is
      at most the length, and equals it exactly when no cell is empty. */
  lemma {:induction false} QuietCount(L: Line)
    requires Quiet(L)
    ensures LineSum(L, Count) <= |L|
    ensures LineSum(L, Count) == |L| <==> forall k :: 0 <= k < |L| ==> !IsEmpty(L[k])
    decreases |L|
  {
    if |L| > 0 {
      var n := |L|;
      QuietCount(L[..n - 1]);
      if LineSum(L, Count) == n {
        forall k | 0 <= k < n ensures !IsEmpty(L[k]) {
          if k < n - 1 {
            assert L[..n - 1][k] == L[k];
          }
        }
      }
      if forall k :: 0 <= k < n ==> !IsEmpty(L[k]) {
        var P := L[..n - 1];
        forall k | 0 <= k < |P| ensures !IsEmpty(P[k]) {
          assert P[k] == L[k];
        }
      }
    }
  }

  /** No double merges: at most floor(|L| / 2) cells of a planned line hold a
      pending merge. */
  lemma MergesAtMostHalf(L: Line)
    requires Quiet(L)
    ensures LineSum(PlanLine(L), Pending) <= |L| / 2
  {
    PlanFromSums(L, 1);
    PendingAtMostHalf(PlanLine(L));
    QuietCount(L);
  }

  /** On a full line that has not been touched yet, a movable index from i on
      means the remaining iterations set up at least one merge. */
  lemma {:induction false} FullLineMerges(L: Line, i: nat)
    requires 1 <= i && WellFormedLine(L) && NoPendingFrom(L, i)
    requires forall k :: 0 <= k < |L| ==> !IsEmpty(L[k])
    requires exists k :: i <= k < |L| && Movable(L, k)
    ensures LineSum(PlanFrom(L, i), Pending) >= LineSum(L, Pending) + 1
    decreases |L| - i
  {
    StepEffect(L, i);
    StepSums(L, i);
    if Movable(L, i) {
      PlanFromSums(Step(L, i), i + 1);
    } else {
      var k :| i <= k < |L| && Movable(L, k);
      assert i + 1 <= k;
      FullLineMerges(L, i + 1);
    }
  }

  /** After a legal move the line has an empty cell, so the spawn that follows
      always finds room. */
  lemma LegalMoveLeavesEmptyCell(L: Line)
    requires Quiet(L) && CanMoveInGroup(L)
    ensures exists k :: 0 <= k < |L| && IsEmpty(MoveLine(L)[k])
  {
    MoveLineSums(L);
    QuietCount(L);
    QuietCount(MoveLine(L));
    if forall k :: 0 <= k < |L| ==> !IsEmpty(L[k]) {
      FullLineMerges(L, 1);
    }
  }

  // ---------------------------------------------------------------------------
  // A legal move changes the line.

  /** The sum, over the tiles of a line, of their distance from the target
      edge; a pending merge counts as a tile of its own. */
  function Moment(L: Line): nat {
    if |L| == 0 then 0 else Moment(L[..|L| - 1]) + (|L| - 1) * Weight(Count, L[|L| - 1])
  }

  /** One more tile at index k raises the moment by k. */
  lemma {:induction false} MomentAdd(L: Line, k: nat, x: Cell)
    requires k < |L| && Weight(Count, x) == Weight(Count, L[k]) + 1
    ensures Moment(L[k := x]) == Moment(L) + k
    decreases |L|
  {
    var n := |L|;
    if k == n - 1 {
      assert L[k := x][..n - 1] == L[..n - 1];
      assert k * Weight(Count, x) == k * Weight(Count, L[k]) + k;
    } else {
      assert L[k := x][..n - 1] == L[..n - 1][k := x];
      MomentAdd(L[..n - 1], k, x);
    }
  }

  /** One tile fewer at index k lowers the moment by k. */
  lemma {:induction false} MomentRemove(L: Line, k: nat, x: Cell)
    requires k < |L| && Weight(Count, L[k]) == Weight(Count, x) + 1
    ensures Moment(L[k := x]) == Moment(L) - k
    decreases |L|
  {
    var n := |L|;
    if k == n - 1 {
      assert L[k := x][..n - 1] == L[..n - 1];
      assert k * Weight(Count, L[k]) == k * Weight(Count, x) + k;
    } else {
      assert L[k := x][..n - 1] == L[..n - 1][k := x];
      MomentRemove(L[..n - 1], k, x);
    }
  }

  /** A relocated tile ends strictly closer to the target edge, so an
      iteration that relocates lowers the moment by i - t; one that does not
      keeps it. */
  lemma StepMoment(L: Line, i: nat)
    requires 0 < i < |L| && WellFormedLine(L) && NoPendingFrom(L, i)
    ensures !Movable(L, i) ==> Moment(Step(L, i)) == Moment(L)
    ensures Movable(L, i) ==> Moment(Step(L, i)) == Moment(L) - (i - RunStart(L, L[i].tile.value, i))
  {
    StepEffect(L, i);
    if Movable(L, i) {
      var v := L[i].tile.value;
      var t := RunStart(L, v, i);
      var x := if IsEmpty(L[t]) then LinkTile(L[t], v) else LinkTileForMerge(L[t], v);
      var L1 := L[t := x];
      assert Step(L, i) == L1[i := UnlinkTile(L[i])];
      assert L1[i] == L[i];
      MomentAdd(L, t, x);
      MomentRemove(L1, i, UnlinkTile(L[i]));
    }
  }

  lemma {:induction false} PlanFromMoment(L: Line, i: nat)
    requires 1 <= i && WellFormedLine(L) && NoPendingFrom(L, i)
    ensures Moment(PlanFrom(L, i)) <= Moment(L)
    ensures (exists k :: i <= k < |L| && Movable(L, k)) ==> Moment(PlanFrom(L, i)) < Moment(L)
    decreases |L| - i
  {
    if i < |L| {
      StepMoment(L, i);
      PlanFromMoment(Step(L, i), i + 1);
      if !Movable(L, i) && exists k :: i <= k < |L| && Movable(L, k) {
        StepEffect(L, i);
        var k :| i <= k < |L| && Movable(L, k);
        assert i + 1 <= k;
      }
    }
  }

  /** Committing a merge removes a tile and moves none. */
  lemma {:induction false} CommitLineMoment(L: Line)
    requires WellFormedLine(L)
    ensures Moment(CommitLine(L)) <= Moment(L)
    decreases |L|
  {
    if |L| > 0 {
      var n := |L|;
      assert CommitLine(L)[..n - 1] == CommitLine(L[..n - 1]);
      CommitLineMoment(L[..n - 1]);
      CommitCell(L[n - 1]);
    }
  }

  /** A line that canMoveInGroup accepts is changed by the move: its tiles end
      up strictly closer to the target edge in total. */
  lemma LegalMoveChangesLine(L: Line)
    requires Quiet(L) && CanMoveInGroup(L)
    ensures Moment(MoveLine(L)) < Moment(L)
    ensures MoveLine(L) != L
  {
    PlanFromMoment(L, 1);
    CommitLineMoment(PlanLine(L));
  }
}
