/** The walk both variants make over a square grid of tiles: rows top to
    bottom, columns left to right, some cells left out, each visited cell
    drawn as a short list of triangles. */
module TileGrid {
  import opened Primitives

  /** Row-major order on cells. */
  predicate Earlier(a: Cell, b: Cell)
  {
    a.row < b.row || (a.row == b.row && a.col < b.col)
  }

  /** The cells a row-major walk over a `grid` x `grid` board has visited
      before reaching (row, col), leaving out the cells `skip` rejects. */
  function VisitedBefore(grid: nat, skip: Cell -> bool, row: nat, col: nat): seq<Cell>
    requires col <= grid
    decreases row, col
  {
    if col == 0 then (if row == 0 then [] else VisitedBefore(grid, skip, row - 1, grid))
    else VisitedBefore(grid, skip, row, col - 1) + (if skip(Cell(row, col - 1)) then [] else [Cell(row, col - 1)])
  }

  /** Every cell the walk visits. */
  function Visited(grid: nat, skip: Cell -> bool): seq<Cell>
  {
    VisitedBefore(grid, skip, grid, 0)
  }

  /** The triangles of a list of cells, cell by cell. */
  function Tiles(tiles: Cell -> seq<Primitive>, cells: seq<Cell>): seq<Primitive>
  {
    if cells == [] then [] else Tiles(tiles, cells[..|cells| - 1]) + tiles(cells[|cells| - 1])
  }

  /** The triangles the walk has drawn before reaching (row, col). */
  function TilesBefore(grid: nat, skip: Cell -> bool, tiles: Cell -> seq<Primitive>, row: nat, col: nat): seq<Primitive>
    requires col <= grid
    decreases row, col
  {
    if col == 0 then (if row == 0 then [] else TilesBefore(grid, skip, tiles, row - 1, grid))
    else TilesBefore(grid, skip, tiles, row, col - 1) + (if skip(Cell(row, col - 1)) then [] else tiles(Cell(row, col - 1)))
  }

  /** One step of the walk along a row. */
  lemma TilesBeforeNextCol(grid: nat, skip: Cell -> bool, tiles: Cell -> seq<Primitive>, row: nat, col: nat)
    requires col < grid
    ensures TilesBefore(grid, skip, tiles, row, col + 1) ==
              TilesBefore(grid, skip, tiles, row, col) + (if skip(Cell(row, col)) then [] else tiles(Cell(row, col)))
  {
  }

  /** Moving from the end of one row to the start of the next. */
  lemma TilesBeforeNextRow(grid: nat, skip: Cell -> bool, tiles: Cell -> seq<Primitive>, row: nat)
    ensures TilesBefore(grid, skip, tiles, row + 1, 0) == TilesBefore(grid, skip, tiles, row, grid)
  {
  }

  lemma TilesSnoc(tiles: Cell -> seq<Primitive>, cells: seq<Cell>, c: Cell)
    ensures Tiles(tiles, cells + [c]) == Tiles(tiles, cells) + tiles(c)
  {
    assert (cells + [c])[..|cells|] == cells;
  }

  /** Two drawings that agree on every cell make the same walk. */
  lemma {:induction false} TilesBeforeCongruent(grid: nat, skip: Cell -> bool, tiles1: Cell -> seq<Primitive>,
                                                tiles2: Cell -> seq<Primitive>, row: nat, col: nat)
    requires col <= grid
    requires forall c :: tiles1(c) == tiles2(c)
    ensures TilesBefore(grid, skip, tiles1, row, col) == TilesBefore(grid, skip, tiles2, row, col)
    decreases row, col
  {
    if col == 0 {
      if row > 0 {
        TilesBeforeCongruent(grid, skip, tiles1, tiles2, row - 1, grid);
      }
    } else {
      TilesBeforeCongruent(grid, skip, tiles1, tiles2, row, col - 1);
    }
  }

  /** Drawing while walking draws exactly the triangles of the visited cells. */
  lemma {:induction false} TilesBeforeVisited(grid: nat, skip: Cell -> bool, tiles: Cell -> seq<Primitive>, row: nat, col: nat)
    requires col <= grid
    ensures TilesBefore(grid, skip, tiles, row, col) == Tiles(tiles, VisitedBefore(grid, skip, row, col))
    decreases row, col
  {
    if col == 0 {
      if row > 0 {
        TilesBeforeVisited(grid, skip, tiles, row - 1, grid);
      }
    } else {
      var c := Cell(row, col - 1);
      var prev := VisitedBefore(grid, skip, row, col - 1);
      TilesBeforeVisited(grid, skip, tiles, row, col - 1);
      if skip(c) {
        assert VisitedBefore(grid, skip, row, col) == prev;
      } else {
        assert VisitedBefore(grid, skip, row, col) == prev + [c];
        TilesSnoc(tiles, prev, c);
      }
    }
  }

  /** The walk has visited a cell before (row, col) exactly when the cell lies
      on the board, comes earlier in row-major order and is not skipped. */
  lemma {:induction false} VisitedBeforeMembers(grid: nat, skip: Cell -> bool, row: nat, col: nat, c: Cell)
    requires col <= grid
    ensures c in VisitedBefore(grid, skip, row, col) <==> Earlier(c, Cell(row, col)) && c.col < grid && !skip(c)
    decreases row, col
  {
    if col == 0 {
      if row > 0 {
        VisitedBeforeMembers(grid, skip, row - 1, grid, c);
      }
    } else {
      VisitedBeforeMembers(grid, skip, row, col - 1, c);
    }
  }

  /** The visited cells come in strictly increasing row-major order, so no
      cell is drawn twice. */
  lemma {:induction false} VisitedBeforeOrdered(grid: nat, skip: Cell -> bool, row: nat, col: nat)
    requires col <= grid
    ensures forall i, j :: 0 <= i < j < |VisitedBefore(grid, skip, row, col)| ==>
              Earlier(VisitedBefore(grid, skip, row, col)[i], VisitedBefore(grid, skip, row, col)[j])
    decreases row, col
  {
    if col == 0 {
      if row > 0 {
        VisitedBeforeOrdered(grid, skip, row - 1, grid);
      }
    } else {
      var prev := VisitedBefore(grid, skip, row, col - 1);
      var c := Cell(row, col - 1);
      VisitedBeforeOrdered(grid, skip, row, col - 1);
      if !skip(c) {
        forall i | 0 <= i < |prev|
          ensures Earlier(prev[i], c)
        {
          VisitedBeforeMembers(grid, skip, row, col - 1, prev[i]);
        }
      }
    }
  }

  /** With four triangles per cell, position k holds triangle k % 4 of cell k / 4. */
  lemma {:induction false} TilesAt(tiles: Cell -> seq<Primitive>, cells: seq<Cell>)
    requires forall c :: c in cells ==> |tiles(c)| == 4
    ensures |Tiles(tiles, cells)| == 4 * |cells|
    ensures forall k :: 0 <= k < 4 * |cells| ==> Tiles(tiles, cells)[k] == tiles(cells[k / 4])[k % 4]
    decreases |cells|
  {
    if cells != [] {
      var init := cells[..|cells| - 1];
      var last := cells[|cells| - 1];
      assert forall c :: c in init ==> c in cells;
      assert last in cells;
      TilesAt(tiles, init);
      forall k | 0 <= k < 4 * |cells|
        ensures Tiles(tiles, cells)[k] == tiles(cells[k / 4])[k % 4]
      {
        if k < 4 * |init| {
          assert cells[k / 4] == init[k / 4];
        } else {
          assert k / 4 == |init| && k % 4 == k - 4 * |init|;
        }
      }
    }
  }
}
