/** The grid cell as script.js uses it. The Cell and Tile classes live in
    grid.js and tile.js, which are not part of this model; what follows is
    the behaviour script.js relies on, stated as explicit assumptions:
    - a cell holds at most one settled tile and at most one tile parked for
      a pending merge; a tile is represented by its value;
    - canAccept(t) is "empty, or no pending merge and the same value";
    - linkTile / unlinkTile set and clear the settled tile;
    - linkTileForMerge parks a tile in the merge slot of an occupied cell
      whose merge slot is free;
    - mergeTiles doubles the settled value and drops the parked tile. */
module Cells {

  datatype Option<T> = None | Some(value: T)

  /** `tile` is the value of the settled tile, `mergeTile` the value of the
      tile waiting to be merged into it. */
  datatype Cell = Cell(tile: Option<nat>, mergeTile: Option<nat>)

  const EmptyCell: Cell := Cell(None, None)

  predicate IsEmpty(c: Cell) {
    c.tile.None?
  }

  predicate HasTileForMerge(c: Cell) {
    c.mergeTile.Some?
  }

  /** The single predicate that governs both sliding into and merging with a cell. */
  predicate CanAccept(c: Cell, v: nat) {
    c.tile.None? || (c.mergeTile.None? && c.tile.value == v)
  }

  function LinkTile(c: Cell, v: nat): Cell {
    c.(tile := Some(v))
  }

  function UnlinkTile(c: Cell): Cell {
    c.(tile := None)
  }

  function LinkTileForMerge(c: Cell, v: nat): Cell
    requires c.tile.Some? && c.mergeTile.None?
  {
    c.(mergeTile := Some(v))
  }

  function MergeTiles(c: Cell): Cell
    requires HasTileForMerge(c) && c.tile.Some?
  {
    Cell(Some(2 * c.tile.value), None)
  }

  /** A parked tile always sits on a settled tile of the same value. */
  predicate WellFormed(c: Cell) {
    c.mergeTile.Some? ==> c.tile.Some? && c.mergeTile.value == c.tile.value
  }

  /** What the commit pass does to one cell (script.js:78). */
  function Commit(c: Cell): Cell
    requires WellFormed(c)
  {
    if HasTileForMerge(c) then MergeTiles(c) else c
  }

  /** Quantities summed over lines and boards: the total of tile values, the
      number of tiles, and the number of pending merges. */
  datatype Metric = Value | Count | Pending

  function Weight(m: Metric, c: Cell): nat {
    match m
    case Value =>
      (if c.tile.Some? then c.tile.value else 0) + (if c.mergeTile.Some? then c.mergeTile.value else 0)
    case Count =>
      (if c.tile.Some? then 1 else 0) + (if c.mergeTile.Some? then 1 else 0)
    case Pending =>
      if c.mergeTile.Some? then 1 else 0
  }

  /** Committing a merge keeps the value, removes one tile per pending merge
      and leaves no pending merge behind. */
  lemma CommitCell(c: Cell)
    requires WellFormed(c)
    ensures Weight(Value, Commit(c)) == Weight(Value, c)
    ensures Weight(Count, Commit(c)) == Weight(Count, c) - Weight(Pending, c)
    ensures !HasTileForMerge(Commit(c))
    ensures IsEmpty(Commit(c)) <==> IsEmpty(c)
  {
  }
}
