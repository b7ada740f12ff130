/** The grid object script.js mutates (the Grid class of grid.js, which is not
    part of this model, as script.js uses it): a fixed N x N array of cells,
    updated in place by the planning pass, the commit pass and the spawn. */
module Grids {
  import opened Cells
  import opened Lines
  import opened Boards

  /** The backward scan of script.js:90-99 over one group (a line of cells,
      target edge first): the farthest cell of the contiguous run of cells
      below index i that accept a tile of value v, or None when the cell just
      below rejects it. */
  method FindTarget(group: Line, i: nat, v: nat) returns (targetCell: Option<nat>)
    requires 0 < i < |group|
    ensures targetCell.None? <==> !CanAccept(group[i - 1], v)
    ensures targetCell.Some? ==> targetCell.value == RunStart(group, v, i) < i
  {
    targetCell := None;
    var j: int := i - 1;
    while j >= 0 && CanAccept(group[j], v)
      invariant -1 <= j < i
      invariant RunStart(group, v, i) == RunStart(group, v, j + 1)
      invariant targetCell == if j + 1 < i then Some(j + 1) else None
      decreases j
    {
      targetCell := Some(j);
      j := j - 1;
    }
  }

  class Grid {
    const n: nat
    const cells: array2<Cell>

    ghost predicate Valid() {
      cells.Length0 == n && cells.Length1 == n
    }

    /** The value of the grid: row r, column c is cells[r, c]. */
    function Board(): (B: Board)
      reads cells
      requires Valid()
      ensures |B| == n && IsSquare(B)
      ensures forall r, c :: 0 <= r < n && 0 <= c < n ==> B[r][c] == cells[r, c]
    {
      seq(n, r requires 0 <= r < n reads cells => seq(n, c requires 0 <= c < n reads cells => cells[r, c]))
    }

    /** new Grid(): every cell empty. */
    constructor (size: nat)
      ensures Valid() && n == size && fresh(cells)
      ensures Board() == EmptyBoard(size)
    {
      n := size;
      cells := new Cell[size, size]((_, _) => EmptyCell);
      new;
      SameBoard(Board(), EmptyBoard(size));
    }

    /** Line l of grouping d read straight from the array: the cell group
        slideTilesInGroup walks. */
    function Group(d: Grouping, l: nat): (L: Line)
      reads cells
      requires Valid() && l < n
      ensures |L| == n
      ensures forall k :: 0 <= k < n ==> L[k] == cells[Coord(d, n, l, k).0, Coord(d, n, l, k).1]
    {
      seq(n, k requires 0 <= k < n reads cells => cells[Coord(d, n, l, k).0, Coord(d, n, l, k).1])
    }

    /** The group is the line of the grid's board. */
    lemma GroupIsLine(d: Grouping, l: nat)
      requires Valid() && l < n
      ensures Group(d, l) == LineAt(Board(), d, l)
    {
    }

    /** One iteration of the outer loop of slideTilesInGroup (script.js:84-109):
        the tile at index i of line l, if any, moves as Step says. */
    method SlideTile(d: Grouping, l: nat, i: nat) returns (relocated: bool)
      requires Valid() && l < n && 0 < i < n
      requires WellFormedLine(Group(d, l)) && NoPendingFrom(Group(d, l), i)
      modifies cells
      ensures Group(d, l) == Step(old(Group(d, l)), i)
      ensures relocated == Movable(old(Group(d, l)), i)
      ensures forall r, c :: 0 <= r < n && 0 <= c < n && LineIndex(d, n, r, c) != l ==> cells[r, c] == old(cells[r, c])
    {
      var group := Group(d, l);
      relocated := false;
      if IsEmpty(group[i]) {
        return;
      }
      var v := group[i].tile.value;
      var targetCell := FindTarget(group, i, v);
      if targetCell.None? {
        return;
      }
      relocated := true;
      Relocate(d, l, i, targetCell.value, v);
    }

    /** The relocation of script.js:103-109: the tile of value v at index i of
        line l moves to index tk, into the empty cell there or parked for a
        merge on the equal tile there. */
    method Relocate(d: Grouping, l: nat, i: nat, tk: nat, v: nat)
      requires Valid() && l < n && tk < i < n
      requires Group(d, l)[i].tile == Some(v) && CanAccept(Group(d, l)[tk], v)
      modifies cells
      ensures var L := old(Group(d, l));
        Group(d, l) == L[tk := if IsEmpty(L[tk]) then LinkTile(L[tk], v) else LinkTileForMerge(L[tk], v)][i := UnlinkTile(L[i])]
      ensures forall r, c :: 0 <= r < n && 0 <= c < n && LineIndex(d, n, r, c) != l ==> cells[r, c] == old(cells[r, c])
    {
      ghost var L := Group(d, l);
      var t := Coord(d, n, l, tk);
      var src := Coord(d, n, l, i);
      if IsEmpty(cells[t.0, t.1]) {
        cells[t.0, t.1] := LinkTile(cells[t.0, t.1], v);
      } else {
        cells[t.0, t.1] := LinkTileForMerge(cells[t.0, t.1], v);
      }
      cells[src.0, src.1] := UnlinkTile(cells[src.0, src.1]);
      ghost var R := L[tk := if IsEmpty(L[tk]) then LinkTile(L[tk], v) else LinkTileForMerge(L[tk], v)][i := UnlinkTile(L[i])];
      forall k | 0 <= k < n ensures Group(d, l)[k] == R[k] {
        assert PosIndex(d, n, Coord(d, n, l, k).0, Coord(d, n, l, k).1) == k;
      }
    }

    /** Replaces one cell: linkTile on the cell the spawn picks. */
    method Put(r: nat, c: nat, x: Cell)
      requires Valid() && r < n && c < n
      modifies cells
      ensures Board() == SetCell(old(Board()), r, c, x)
    {
      ghost var B0 := Board();
      cells[r, c] := x;
      SameBoard(Board(), SetCell(B0, r, c, x));
    }

    /** slideTilesInGroup (script.js:82-111) on line `l` of grouping `d`. The
        result is how many promises the pass pushes (script.js:101), one per
        relocated tile. Cells of other lines are not touched. */
    method SlideTilesInGroup(d: Grouping, l: nat) returns (relocated: nat)
      requires Valid() && l < n && Quiet(Group(d, l))
      modifies cells
      ensures Group(d, l) == PlanLine(old(Group(d, l)))
      ensures relocated == Relocations(old(Group(d, l)))
      ensures forall r, c :: 0 <= r < n && 0 <= c < n && LineIndex(d, n, r, c) != l ==> cells[r, c] == old(cells[r, c])
    {
      ghost var L0 := Group(d, l);
      relocated := 0;
      var i := 1;
      while i < n
        invariant 1 <= i <= n && Group(d, l) == PlanPrefix(L0, i) && relocated == PrefixRelocations(L0, i)
        invariant forall r, c :: 0 <= r < n && 0 <= c < n && LineIndex(d, n, r, c) != l ==> cells[r, c] == old(cells[r, c])
      {
        relocated := CountedSlide(d, l, i, relocated, L0);
        i := i + 1;
      }
      PlanPrefixComplete(L0);
    }

    /** Iteration i of the loop of slideTilesInGroup together with its push of
        a promise when the tile moves (script.js:101). */
    method CountedSlide(d: Grouping, l: nat, i: nat, relocated: nat, ghost L0: Line) returns (count: nat)
      requires Valid() && l < n && 1 <= i < n && Quiet(L0) && |L0| == n
      requires Group(d, l) == PlanPrefix(L0, i) && relocated == PrefixRelocations(L0, i)
      modifies cells
      ensures Group(d, l) == PlanPrefix(L0, i + 1) && count == PrefixRelocations(L0, i + 1)
      ensures forall r, c :: 0 <= r < n && 0 <= c < n && LineIndex(d, n, r, c) != l ==> cells[r, c] == old(cells[r, c])
    {
      var moved := SlideTile(d, l, i);
      count := relocated + if moved then 1 else 0;
    }

    /** The commit pass of slideTiles (script.js:77-79): every cell holding a
        pending merge merges it. */
    method CommitMerges()
      requires Valid() && WellFormedBoard(Board())
      modifies cells
      ensures Board() == CommitBoard(old(Board()))
    {
      ghost var B0 := Board();
      var r := 0;
      while r < n
        invariant 0 <= r <= n
        invariant forall r', c' :: 0 <= r' < n && 0 <= c' < n ==>
          cells[r', c'] == if r' < r then Commit(B0[r'][c']) else B0[r'][c']
      {
        var c := 0;
        while c < n
          invariant 0 <= c <= n
          invariant forall r', c' :: 0 <= r' < n && 0 <= c' < n ==>
            cells[r', c'] == if r' < r || (r' == r && c' < c) then Commit(B0[r'][c']) else B0[r'][c']
        {
          if HasTileForMerge(cells[r, c]) {
            cells[r, c] := MergeTiles(cells[r, c]);
          }
          c := c + 1;
        }
        r := r + 1;
      }
      SameBoard(Board(), CommitBoard(B0));
    }

    /** slideTiles (script.js:71-80): plan every line of the grouping, then
        commit; merges are applied only after every line has been planned. */
    method SlideTiles(d: Grouping)
      requires Valid() && QuietBoard(Board())
      modifies cells
      ensures Board() == Move(old(Board()), d)
    {
      PlanLines(d);
      CommitMerges();
    }

    /** The forEach of script.js:74: slideTilesInGroup on every line of the
        grouping, one after the other; the grid becomes the planned board. */
    method PlanLines(d: Grouping)
      requires Valid() && QuietBoard(Board())
      modifies cells
      ensures Board() == PlanAll(old(Board()), d)
    {
      ghost var B0 := Board();
      PlannedUpToEnds(B0, d);
      var l := 0;
      while l < n
        invariant 0 <= l <= n
        invariant Board() == PlannedUpTo(B0, d, l)
      {
        PlannedUpToLine(B0, d, l);
        QuietLine(B0, d, l);
        GroupIsLine(d, l);
        var moved := SlideTilesInGroup(d, l);
        GroupIsLine(d, l);
        PlannedUpToStep(B0, d, l, Board());
        l := l + 1;
      }
    }

    /** grid.getRandomEmptyCell().linkTile(new Tile()) (script.js:24, 240):
        `pick` stands for the random choice among the empty cells, `v` for the
        value the new tile starts with. */
    method SpawnTile(pick: nat, v: nat)
      requires Valid() && |EmptyCells(Board())| > 0
      modifies cells
      ensures Board() == SpawnAt(old(Board()), pick, v)
    {
      ghost var B0 := Board();
      var E := EmptyCells(Board());
      var p := E[pick % |E|];
      assert p in E;
      Put(p.0, p.1, LinkTile(cells[p.0, p.1], v));
    }

    /** The two spawns of startGame (script.js:24-25) on the fresh grid. */
    method SpawnStartTiles(pick1: nat, v1: nat, pick2: nat, v2: nat)
      requires Valid() && n >= 2 && Board() == EmptyBoard(n)
      modifies cells
      ensures Board() == StartBoard(n, pick1, v1, pick2, v2)
    {
      StartRoom(n, pick1, v1);
      SpawnTile(pick1, v1);
      SpawnTile(pick2, v2);
    }

    /** The single spawn after an accepted move (script.js:239-240); the move
        left an empty cell, so the spawn always finds room. */
    method SpawnAfterMove(ghost B: Board, g: Grouping, pick: nat, v: nat)
      requires Valid() && QuietBoard(B) && CanMove(B, g) && Board() == Move(B, g)
      modifies cells
      ensures Board() == Turn(B, g, pick, v)
    {
      SpawnAfterLegalMove(B, g);
      SpawnTile(pick, v);
    }
  }
}
